/** controllers/orderController.js: turning the cart into an order, the
    ownership rule for reading one, and the two single-field status setters. */
module OrderController {
  import opened Common
  import CartModel
  import opened OrderModel
  import Db

  /** `ORD-${Date.now()}`, with the clock reading as a parameter: the prefix,
      then at least one decimal digit and nothing else. */
  function OrderIdFor(now: nat): (id: string)
    ensures |id| >= 5 && id[..4] == "ORD-"
    ensures forall i :: 4 <= i < |id| ==> '0' <= id[i] <= '9'
  {
    "ORD-" + Decimal(now)
  }

  /** Two different clock readings give two different order ids. */
  lemma OrderIdInjective(a: nat, b: nat)
    ensures OrderIdFor(a) == OrderIdFor(b) ==> a == b
  {
    if OrderIdFor(a) == OrderIdFor(b) {
      assert OrderIdFor(a)[4..] == Decimal(a);
      assert OrderIdFor(b)[4..] == Decimal(b);
      DecimalInjective(a, b);
    }
  }

  /** The `cart.items.map` callback: the line's choices, with the price it was
      added at frozen as `priceAtPurchase`. */
  function Freeze(it: CartModel.CartItem): (o: OrderItem)
    ensures o.priceAtPurchase * o.quantity == CartModel.Subtotal(it)
    ensures o.product == it.product && o.quantity == it.quantity
  {
    OrderItem(it.product, it.size, it.color, it.design, it.customText, it.quantity, it.priceAtAddition)
  }

  /** The order lines of a cart, one per cart line, in the cart's order. */
  function Snapshot(items: seq<CartModel.CartItem>): (r: seq<OrderItem>)
    ensures |r| == |items|
    ensures forall i :: 0 <= i < |items| ==>
      r[i].product == items[i].product && r[i].size == items[i].size &&
      r[i].color == items[i].color && r[i].design == items[i].design &&
      r[i].customText == items[i].customText && r[i].quantity == items[i].quantity &&
      r[i].priceAtPurchase == items[i].priceAtAddition
  {
    seq(|items|, i requires 0 <= i < |items| => Freeze(items[i]))
  }

  /** The cart total and the sum over the frozen order lines are the same number. */
  lemma {:induction false} SnapshotTotal(items: seq<CartModel.CartItem>)
    ensures LinesTotal(Snapshot(items)) == CartModel.Total(items)
    decreases |items|
  {
    if |items| > 0 {
      assert Snapshot(items)[1..] == Snapshot(items[1..]);
      SnapshotTotal(items[1..]);
      CartModel.FoldShift(CartModel.Subtotal(items[0]), items[1..]);
    }
  }

  /** The order createOrder saves for `cart`: the user's, one line per cart
      line, not yet paid, and for a cart whose total is current its amount is
      the sum over its own lines. */
  function NewOrder(user: Id, cart: CartModel.Cart, shipping: ShippingDetails, now: nat): (o: Order)
    ensures o.user == user && o.orderId == OrderIdFor(now) && |o.items| == |cart.items|
    ensures o.items == Snapshot(cart.items) && o.totalAmount == cart.total && o.shippingDetails == shipping
    ensures o.paymentStatus == Pending && o.paymentDetails == None && o.orderStatus == None
    ensures cart.total == CartModel.Total(cart.items) ==> o.totalAmount == LinesTotal(o.items)
  {
    SnapshotTotal(cart.items);
    Order(user, OrderIdFor(now), Snapshot(cart.items), shipping, cart.total, Pending, None, None)
  }

  /** Every cart line's product still exists, so `populate` fills it in. */
  predicate ProductsResolve<P>(items: seq<CartModel.CartItem>, products: map<Id, P>)
  {
    forall i :: 0 <= i < |items| ==> items[i].product in products
  }

  /** What `item.product._id` throws when `populate` left a deleted product as null. */
  const NullProduct: Error := ServerError("Cannot read properties of null (reading '_id')")

  /** POST /api/orders. A missing or empty cart is refused and nothing is
      written. Otherwise the order takes the next fresh key, copies the lines
      with their prices frozen, takes the cart's total as its amount, starts
      Pending, and the cart is deleted. */
  method CreateOrder(db: Db.Database, user: Id, shipping: ShippingDetails, now: nat) returns (r: Result<Order>)
    requires db.Valid()
    modifies db
    ensures db.Valid()
    ensures db.products == old(db.products)
    ensures (user !in old(db.carts) || |old(db.carts)[user].items| == 0) ==>
      r == Err(BadRequest("No items in cart")) &&
      db.carts == old(db.carts) && db.orders == old(db.orders) && db.nextId == old(db.nextId)
    ensures user in old(db.carts) && |old(db.carts)[user].items| > 0 &&
            !ProductsResolve(old(db.carts)[user].items, old(db.products)) ==>
      r == Err(NullProduct) && db.carts == old(db.carts) && db.orders == old(db.orders) &&
      db.nextId == old(db.nextId)
    ensures user in old(db.carts) && |old(db.carts)[user].items| > 0 &&
            ProductsResolve(old(db.carts)[user].items, old(db.products)) ==>
      var cart := old(db.carts)[user];
      r == Ok(NewOrder(user, cart, shipping, now)) &&
      old(db.nextId) !in old(db.orders) &&
      db.orders == old(db.orders)[old(db.nextId) := r.value] && db.nextId == old(db.nextId) + 1 &&
      db.carts == old(db.carts) - {user} &&
      r.value.orderId == "ORD-" + Decimal(now) &&
      |r.value.items| == |cart.items| &&
      r.value.totalAmount == cart.total &&
      r.value.totalAmount == LinesTotal(r.value.items) &&
      r.value.paymentStatus == Pending && r.value.paymentDetails == None
  {
    if user !in db.carts || |db.carts[user].items| == 0 {
      return Err(BadRequest("No items in cart"));
    }
    var cart := db.carts[user];
    if !ProductsResolve(cart.items, db.products) {
      return Err(NullProduct);
    }
    var order := NewOrder(user, cart, shipping, now);
    SnapshotTotal(cart.items);
    var key := db.NewIds(1);
    db.orders := db.orders[key := order];
    db.carts := db.carts - {user};
    r := Ok(order);
  }

  /** GET /api/orders/:id: the order when the caller is logged in as its owner
      or is an admin; 401 otherwise; 404 when there is no such order. */
  function GetOrderById(orders: map<Id, Order>, key: Id, user: Option<Id>, admin: bool): (r: Result<Order>)
    ensures key !in orders ==> r == Err(NotFound("Order not found"))
    ensures key in orders ==> (r.Ok? <==> admin || user == Some(orders[key].user))
    ensures r.Ok? ==> key in orders && r.value == orders[key]
    ensures key in orders && r.Err? ==> r.error == Unauthorized("Not authorized to view this order")
  {
    if key !in orders then Err(NotFound("Order not found"))
    else if (user.None? || orders[key].user != user.value) && !admin then
      Err(Unauthorized("Not authorized to view this order"))
    else Ok(orders[key])
  }

  /** PUT /api/orders/:id/pay: sets `paymentStatus` to Paid whatever it was,
      with no ownership check, and touches no other field. */
  method UpdateOrderToPaid(db: Db.Database, key: Id) returns (r: Result<Order>)
    requires db.Valid()
    modifies db
    ensures db.Valid()
    ensures db.carts == old(db.carts) && db.products == old(db.products) && db.nextId == old(db.nextId)
    ensures key !in old(db.orders) ==> r == Err(NotFound("Order not found")) && db.orders == old(db.orders)
    ensures key in old(db.orders) ==>
      r == Ok(old(db.orders)[key].(paymentStatus := Paid)) && db.orders == old(db.orders)[key := r.value]
  {
    if key !in db.orders {
      return Err(NotFound("Order not found"));
    }
    var order := db.orders[key].(paymentStatus := Paid);
    db.orders := db.orders[key := order];
    r := Ok(order);
  }

  /** PUT /api/admin/orders/:id: sets `orderStatus` to the value sent, nothing
      else; a body without `status` (None) writes undefined and clears it. */
  method UpdateOrderStatus(db: Db.Database, key: Id, status: Option<string>) returns (r: Result<Order>)
    requires db.Valid()
    modifies db
    ensures db.Valid()
    ensures db.carts == old(db.carts) && db.products == old(db.products) && db.nextId == old(db.nextId)
    ensures key !in old(db.orders) ==> r == Err(NotFound("Order not found")) && db.orders == old(db.orders)
    ensures key in old(db.orders) ==>
      r == Ok(old(db.orders)[key].(orderStatus := status)) && db.orders == old(db.orders)[key := r.value]
  {
    if key !in db.orders {
      return Err(NotFound("Order not found"));
    }
    var order := db.orders[key].(orderStatus := status);
    db.orders := db.orders[key := order];
    r := Ok(order);
  }
}
