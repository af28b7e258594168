/** Order intake on the server: the documents the routes write, the totals they compute
    and the reattribution of orders when two customers are merged. */
module Orders {
  import opened Wrappers

  /** Document ids (Mongo ObjectIds), compared by value. */
  type Id = nat

  /** The product fields an order snapshots. */
  datatype Product = Product(name: string, price: int, image: string)

  /** A customer profile; its phone is unique among customers. */
  datatype Customer = Customer(phone: string)

  datatype Status = Pending | Processing | Shipped | Delivered | Cancelled

  /** One line of a cart order, copied from the product when the order is placed. */
  datatype OrderItem = OrderItem(productId: Id, productName: string, productPrice: int,
                                 productImage: string, quantity: int, subtotal: int)

  /** An order holds either the legacy single-product fields or a list of items. */
  datatype Lines =
    | SingleProduct(productName: string, productPrice: int, productImage: string, quantity: int)
    | Items(items: seq<OrderItem>)

  datatype Order = Order(customerId: Option<Id>, lines: Lines, totalAmount: int,
                         customerPhone: string, status: Status)

  /** A line of the cart a client submits. */
  datatype CartLine = CartLine(productId: Id, quantity: int)

  /** The document a single-product order saves: product fields copied, the total their
      product, status at its default. */
  function SingleOrder(product: Product, quantity: int, phone: string, customerId: Option<Id>): Order
  {
    Order(customerId, SingleProduct(product.name, product.price, product.image, quantity),
          product.price * quantity, phone, Pending)
  }

  /** The item a resolvable cart line becomes. */
  function Snapshot(id: Id, product: Product, quantity: int): OrderItem
  {
    OrderItem(id, product.name, product.price, product.image, quantity, product.price * quantity)
  }

  /** The lines whose product resolves, as items, in input order; the rest are skipped. */
  function ResolveItems(lines: seq<CartLine>, products: map<Id, Product>): seq<OrderItem>
  {
    if lines == [] then []
    else
      var rest := ResolveItems(lines[1..], products);
      var l := lines[0];
      if l.productId in products then [Snapshot(l.productId, products[l.productId], l.quantity)] + rest
      else rest
  }

  function SumSubtotals(items: seq<OrderItem>): int
  {
    if items == [] then 0 else SumSubtotals(items[..|items| - 1]) + items[|items| - 1].subtotal
  }

  /** The document a cart order saves. */
  function CartOrder(items: seq<OrderItem>, phone: string, customerId: Option<Id>): Order
  {
    Order(customerId, Items(items), SumSubtotals(items), phone, Pending)
  }

  /** The order invariant: each subtotal is price times quantity and the total is the sum
      of the subtotals (for a legacy order, price times quantity). */
  predicate TotalsConsistent(o: Order)
  {
    match o.lines
    case SingleProduct(_, price, _, quantity) => o.totalAmount == price * quantity
    case Items(items) =>
      && (forall i :: 0 <= i < |items| ==> items[i].subtotal == items[i].productPrice * items[i].quantity)
      && o.totalAmount == SumSubtotals(items)
  }

  /** What the schema's validation accepts on save: items need a quantity of at least one
      (the legacy `quantity` has no minimum). */
  predicate SatisfiesSchema(o: Order)
  {
    match o.lines
    case SingleProduct(_, _, _, _) => true
    case Items(items) => forall i :: 0 <= i < |items| ==> items[i].quantity >= 1
  }

  /** The loop of the cart route: look each line's product up, skip it when missing,
      otherwise push its item and add its subtotal. */
  method CollectOrderItems(lines: seq<CartLine>, products: map<Id, Product>)
    returns (items: seq<OrderItem>, total: int)
    ensures items == ResolveItems(lines, products)
    ensures total == SumSubtotals(items)
  {
    items, total := [], 0;
    var i := 0;
    while i < |lines|
      invariant 0 <= i <= |lines|
      invariant items == ResolveItems(lines[..i], products)
      invariant total == SumSubtotals(items)
    {
      ResolveItemsAppend(lines[..i], [lines[i]], products);
      assert lines[..i + 1] == lines[..i] + [lines[i]];
      var line := lines[i];
      if line.productId in products {
        var product := products[line.productId];
        var subtotal := product.price * line.quantity;
        var item := Snapshot(line.productId, product, line.quantity);
        assert (items + [item])[..|items + [item]| - 1] == items;
        items := items + [item];
        total := total + subtotal;
      }
      i := i + 1;
    }
    assert lines[..i] == lines;
  }

  // ----- properties of the totals -----

  /** A single-product order keeps the invariant and is worth the price times the quantity. */
  lemma SingleOrderTotal(product: Product, quantity: int, phone: string, customerId: Option<Id>)
    ensures var o := SingleOrder(product, quantity, phone, customerId);
            && o.totalAmount == product.price * quantity
            && o.status == Pending && o.customerId == customerId
            && TotalsConsistent(o) && SatisfiesSchema(o)
  {
  }

  /** Resolution works line by line, so it keeps the input order. */
  lemma {:induction false} ResolveItemsAppend(a: seq<CartLine>, b: seq<CartLine>, products: map<Id, Product>)
    ensures ResolveItems(a + b, products) == ResolveItems(a, products) + ResolveItems(b, products)
  {
    if a == [] {
      assert a + b == b;
    } else {
      assert (a + b)[0] == a[0];
      assert (a + b)[1..] == a[1..] + b;
      ResolveItemsAppend(a[1..], b, products);
    }
  }

  /** One line becomes its product's snapshot when it resolves, and nothing otherwise. */
  lemma ResolveOneLine(l: CartLine, products: map<Id, Product>)
    ensures ResolveItems([l], products)
            == if l.productId in products then [Snapshot(l.productId, products[l.productId], l.quantity)] else []
  {
    assert [l][1..] == [];
  }

  /** Every item is the snapshot of an existing product: its name, price and image as they
      are in the catalogue, and subtotal = price * quantity. */
  predicate AllSnapshots(items: seq<OrderItem>, products: map<Id, Product>)
  {
    forall i :: 0 <= i < |items| ==>
      items[i].productId in products
      && items[i] == Snapshot(items[i].productId, products[items[i].productId], items[i].quantity)
  }

  /** Resolution copies the catalogue's current product fields into every item. */
  lemma {:induction false} ResolvedItemsAreSnapshots(lines: seq<CartLine>, products: map<Id, Product>)
    ensures AllSnapshots(ResolveItems(lines, products), products)
  {
    if lines != [] {
      ResolvedItemsAreSnapshots(lines[1..], products);
      var rest := ResolveItems(lines[1..], products);
      var l := lines[0];
      if l.productId in products {
        var items := [Snapshot(l.productId, products[l.productId], l.quantity)] + rest;
        assert forall i :: 0 < i < |items| ==> items[i] == rest[i - 1];
      }
    }
  }

  /** Nothing resolves exactly when no line names an existing product. */
  lemma {:induction false} ResolveItemsEmptyIff(lines: seq<CartLine>, products: map<Id, Product>)
    ensures ResolveItems(lines, products) == []
            <==> forall i :: 0 <= i < |lines| ==> lines[i].productId !in products
  {
    if lines != [] {
      ResolveItemsEmptyIff(lines[1..], products);
      assert forall i :: 1 <= i < |lines| ==> lines[i] == lines[1..][i - 1];
    }
  }

  /** A cart order built from the resolved items keeps the order invariant. */
  lemma CartOrderTotals(lines: seq<CartLine>, products: map<Id, Product>, phone: string,
                        customerId: Option<Id>)
    ensures var o := CartOrder(ResolveItems(lines, products), phone, customerId);
            && TotalsConsistent(o) && o.status == Pending && o.customerId == customerId
  {
    ResolvedItemsAreSnapshots(lines, products);
  }

  // ----- customers and the merge on a phone change -----

  /** The customers whose phone is `phone` (`Customer.findOne({ phone })` picks from these). */
  function PhoneOwners(customers: map<Id, Customer>, phone: string): set<Id>
  {
    set k | k in customers && customers[k].phone == phone
  }

  /** The unique index on a customer's phone. */
  predicate PhonesUnique(customers: map<Id, Customer>)
  {
    forall a, b :: a in customers && b in customers && a != b ==> customers[a].phone != customers[b].phone
  }

  /** The orders attributed to a customer. */
  function OrdersOf(orders: map<Id, Order>, customer: Id): set<Id>
  {
    set k | k in orders && orders[k].customerId == Some(customer)
  }

  /** `Order.updateMany({ customerId: from }, { customerId: to })`. */
  function ReassignOrders(orders: map<Id, Order>, from: Id, to: Id): map<Id, Order>
  {
    map k | k in orders :: if orders[k].customerId == Some(from) then orders[k].(customerId := Some(to)) else orders[k]
  }

  /** After reattribution no order is lost, `to` owns the union of both customers' orders,
      `from` owns none, every other customer keeps exactly its orders, an order that was
      not `from`'s is left as it was, and an order that was `from`'s changes only its owner. */
  lemma ReassignUnitesOrders(orders: map<Id, Order>, from: Id, to: Id)
    requires from != to
    ensures ReassignOrders(orders, from, to).Keys == orders.Keys
    ensures forall k :: k in orders && k !in OrdersOf(orders, from) ==> ReassignOrders(orders, from, to)[k] == orders[k]
    ensures forall k :: k in OrdersOf(orders, from) ==> ReassignOrders(orders, from, to)[k] == orders[k].(customerId := Some(to))
    ensures OrdersOf(ReassignOrders(orders, from, to), to) == OrdersOf(orders, to) + OrdersOf(orders, from)
    ensures OrdersOf(ReassignOrders(orders, from, to), from) == {}
    ensures forall c :: c != from && c != to ==> OrdersOf(ReassignOrders(orders, from, to), c) == OrdersOf(orders, c)
  {
    var r := ReassignOrders(orders, from, to);
    assert OrdersOf(r, to) == OrdersOf(orders, to) + OrdersOf(orders, from) by {
      forall k ensures k in OrdersOf(r, to) <==> k in OrdersOf(orders, to) + OrdersOf(orders, from) {
      }
    }
    assert OrdersOf(r, from) == {} by {
      forall k | k in OrdersOf(r, from) ensures false {
      }
    }
  }

  /** With unique phones a phone has at most one owner. */
  lemma UniquePhoneOwner(customers: map<Id, Customer>, phone: string, a: Id)
    requires PhonesUnique(customers) && a in PhoneOwners(customers, phone)
    ensures PhoneOwners(customers, phone) == {a}
  {
  }
}
