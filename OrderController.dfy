/**
 * The order handlers of controllers/orderController.js over an in-memory
 * store: an order table and a product catalog, both keyed by document id.
 * `createOrder` and `updateOrderStatus` change the table in place and are
 * methods of `OrderStore`; `getUserOrders` and `getAllOrders` are queries
 * over the table and are functions.
 */
module OrderController {
  import opened Wrappers
  import opened OrderModel

  /** The part of a catalog product the order handlers read. */
  datatype Product = Product(price: nat, stock: nat)

  /** What a handler sends back: a status code and a JSON body. */
  datatype Response =
    | OrderBody(code: nat, order: Order)
    | OrderList(code: nat, orders: set<Order>)
    | Message(code: nat, message: string)

  const ProductNotFound := "Product not found"
  const OrderNotFound := "Order not found"
  const ServerError := "Server Error"

  /** The table is well formed when each document is stored under its own id. */
  predicate WellFormed(t: map<OrderId, Order>) {
    forall k :: k in t ==> t[k].id == k
  }

  /** `getUserOrders`: the orders whose `user` is the caller. */
  function UserOrders(t: map<OrderId, Order>, caller: UserId): (r: set<Order>)
    ensures forall o :: o in r ==> o.user == caller
    ensures forall k :: k in t && t[k].user == caller ==> t[k] in r
    ensures forall o :: o in r ==> o in t.Values
  {
    set k | k in t && t[k].user == caller :: t[k]
  }

  /** `getAllOrders`: every order in the table. */
  function AllOrders(t: map<OrderId, Order>): (r: set<Order>)
    ensures forall k :: k in t ==> t[k] in r
    ensures WellFormed(t) ==> forall o :: o in r ==> o.id in t && t[o.id] == o
  {
    t.Values
  }

  /** The status `status || order.status` leaves on the document, or None when
      the supplied string is not in the enum and `save` rejects it. An absent
      or empty status is falsy and keeps the current one. */
  function ResolveStatus(current: Status, supplied: Option<string>): (r: Option<Status>)
    ensures (supplied.None? || supplied.value == "") ==> r == Some(current)
    ensures supplied.Some? && supplied.value != "" ==>
              (r.Some? <==> ParseStatus(supplied.value).Some?)
              && (r.Some? ==> r.value.Name() == supplied.value)
  {
    if supplied.Some? && supplied.value != "" then ParseStatus(supplied.value) else Some(current)
  }

  /** Two documents that differ at most in their status. */
  predicate SameButStatus(a: Order, b: Order) {
    a.id == b.id && a.user == b.user && a.product == b.product
    && a.quantity == b.quantity && a.totalPrice == b.totalPrice
  }

  /** The table after the order under `id` is given status `s`. */
  function WithStatus(t: map<OrderId, Order>, id: OrderId, s: Status): (t': map<OrderId, Order>)
    requires id in t
    ensures t'.Keys == t.Keys
    ensures forall k :: k in t && k != id ==> t'[k] == t[k]
    ensures SameButStatus(t[id], t'[id]) && t'[id].status == s
    ensures WellFormed(t) ==> WellFormed(t')
  {
    t[id := t[id].(status := s)]
  }

  /** The document `createOrder` stores: the caller's order for `quantity` units
      at the product's current price. */
  function Placed(id: OrderId, caller: UserId, productId: ProductId, price: nat, quantity: nat): (o: Order)
    ensures o.id == id && o.user == caller && o.product == productId && o.quantity == quantity
    ensures o.totalPrice == price * quantity && o.status == Pending
  {
    var f := OrderFields(Some(caller), Some(productId), Some(quantity), Some(price * quantity), None);
    Cast(id, f).value
  }

  /** What `createOrder` does to the table `t` (giving `t'`) and answers, for
      a caller asking for `quantity` units of `productId` from `products`. */
  predicate Created(t: map<OrderId, Order>, t': map<OrderId, Order>, products: map<ProductId, Product>,
                    caller: UserId, productId: ProductId, quantity: nat, resp: Response)
  {
    if productId !in products then
      resp == Message(404, ProductNotFound) && t' == t
    else
      && resp.OrderBody? && resp.code == 201
      && resp.order.id !in t
      && resp.order == Placed(resp.order.id, caller, productId, products[productId].price, quantity)
      && t' == t[resp.order.id := resp.order]
  }

  /** What `updateOrderStatus` does to the table `t` (giving `t'`) and
      answers, for order `id` and the supplied `status`. */
  predicate Updated(t: map<OrderId, Order>, t': map<OrderId, Order>, id: OrderId, status: Option<string>,
                    resp: Response)
  {
    if id !in t then
      resp == Message(404, OrderNotFound) && t' == t
    else if ResolveStatus(t[id].status, status).None? then
      resp == Message(500, ServerError) && t' == t
    else
      && t' == WithStatus(t, id, ResolveStatus(t[id].status, status).value)
      && resp == OrderBody(200, t'[id])
  }

  /** A finite set of ids always leaves a larger id free. */
  lemma {:induction false} FreshIdExists(s: set<OrderId>) returns (k: OrderId)
    ensures k !in s && forall x :: x in s ==> x < k
  {
    if s == {} {
      k := 0;
    } else {
      var x :| x in s;
      var k0 := FreshIdExists(s - {x});
      k := if x < k0 then k0 else x + 1;
      assert forall y :: y in s ==> y == x || y in s - {x};
    }
  }

  class OrderStore {
    var orders: map<OrderId, Order>
    var products: map<ProductId, Product>

    ghost predicate Valid()
      reads this
    {
      WellFormed(orders)
    }

    /** An empty order table over a given catalog. */
    constructor (catalog: map<ProductId, Product>)
      ensures Valid() && orders == map[] && products == catalog
    {
      orders := map[];
      products := catalog;
    }

    /** `createOrder`: look the product up; on a miss answer 404, otherwise
        store one new `Pending` order priced at `price * quantity` under an id
        not yet in use. The catalog is only read. */
    method CreateOrder(caller: UserId, productId: ProductId, quantity: nat) returns (resp: Response)
      requires Valid()
      modifies this`orders
      ensures Valid()
      ensures Created(old(orders), orders, products, caller, productId, quantity, resp)
    {
      if productId !in products {
        return Message(404, ProductNotFound);
      }
      var product := products[productId];
      var totalPrice := product.price * quantity;
      ghost var above := FreshIdExists(orders.Keys);
      var id :| id !in orders;
      var fields := OrderFields(Some(caller), Some(productId), Some(quantity), Some(totalPrice), None);
      var order := Cast(id, fields).value;
      orders := orders[id := order];
      resp := OrderBody(201, order);
    }

    /** `updateOrderStatus`: on a missing order answer 404; otherwise set the
        status `status || order.status`, and save. A status outside the enum
        fails the save (500) and the stored order keeps its old status. */
    method UpdateOrderStatus(id: OrderId, status: Option<string>) returns (resp: Response)
      requires Valid()
      modifies this`orders
      ensures Valid()
      ensures Updated(old(orders), orders, id, status, resp)
    {
      if id !in orders {
        return Message(404, OrderNotFound);
      }
      var order := orders[id];
      var next := ResolveStatus(order.status, status);
      if next.None? {
        return Message(500, ServerError);
      }
      orders := orders[id := order.(status := next.value)];
      resp := OrderBody(200, orders[id]);
    }
  }

  /** `getUserOrders` never returns another user's order, and together the
      per-user lists cover the whole table. */
  lemma {:induction false} UserOrdersPartition(t: map<OrderId, Order>, u: UserId, v: UserId)
    ensures UserOrders(t, u) <= AllOrders(t)
    ensures u != v ==> UserOrders(t, u) !! UserOrders(t, v)
    ensures forall o :: o in AllOrders(t) ==> o in UserOrders(t, o.user)
  {
    forall o | o in AllOrders(t) ensures o in UserOrders(t, o.user) {
      var k :| k in t && t[k] == o;
    }
  }

  /** A new order shows up in its owner's list and in nobody else's. */
  lemma {:induction false} UserOrdersAfterCreate(t: map<OrderId, Order>, o: Order, u: UserId)
    requires o.id !in t
    ensures UserOrders(t[o.id := o], u) == if o.user == u then UserOrders(t, u) + {o} else UserOrders(t, u)
  {
    var t' := t[o.id := o];
    if o.user == u {
      forall x | x in UserOrders(t', u) ensures x in UserOrders(t, u) + {o} {
        var k :| k in t' && t'[k].user == u && t'[k] == x;
        if k != o.id { assert t[k] == x; }
      }
      forall x | x in UserOrders(t, u) + {o} ensures x in UserOrders(t', u) {
        if x != o {
          var k :| k in t && t[k].user == u && t[k] == x;
          assert t'[k] == x;
        } else {
          assert t'[o.id] == o;
        }
      }
    } else {
      forall x | x in UserOrders(t', u) ensures x in UserOrders(t, u) {
        var k :| k in t' && t'[k].user == u && t'[k] == x;
        assert k != o.id;
        assert t[k] == x;
      }
      forall x | x in UserOrders(t, u) ensures x in UserOrders(t', u) {
        var k :| k in t && t[k].user == u && t[k] == x;
        assert t'[k] == x;
      }
    }
  }

  /** `updateOrderStatus` sent twice with the same body: the second call
      leaves the table as the first left it and gives the same answer. */
  lemma {:induction false} UpdateTwice(t: map<OrderId, Order>, t1: map<OrderId, Order>, t2: map<OrderId, Order>,
                                       id: OrderId, status: Option<string>, r1: Response, r2: Response)
    requires Updated(t, t1, id, status, r1) && Updated(t1, t2, id, status, r2)
    ensures t2 == t1 && r2 == r1
  {
    if id in t && ResolveStatus(t[id].status, status).Some? {
      var s := ResolveStatus(t[id].status, status).value;
      assert t1[id].status == s;
      if status.Some? && status.value != "" {
        assert ParseStatus(status.value) == Some(s);
      }
      assert ResolveStatus(t1[id].status, status) == Some(s);
      assert t1[id := t1[id].(status := s)] == t1;
    }
  }

  /** `createOrder` keeps every existing order as it was and adds exactly one
      when the product exists; other users' lists do not change. */
  lemma {:induction false} CreatedAddsOne(t: map<OrderId, Order>, t': map<OrderId, Order>,
                                          products: map<ProductId, Product>, caller: UserId,
                                          productId: ProductId, quantity: nat, resp: Response, other: UserId)
    requires Created(t, t', products, caller, productId, quantity, resp)
    ensures t.Keys <= t'.Keys && forall k :: k in t ==> t'[k] == t[k]
    ensures |t'| == if productId in products then |t| + 1 else |t|
    ensures other != caller ==> UserOrders(t', other) == UserOrders(t, other)
  {
    if productId in products {
      var o := resp.order;
      assert t'.Keys == t.Keys + {o.id};
      UserOrdersAfterCreate(t, o, other);
    }
  }

  /** Any enum value may replace any other, Delivered back to Pending
      included: no transition is refused. */
  lemma StatusUnconstrained(current: Status, target: Status)
    ensures ResolveStatus(current, Some(target.Name())) == Some(target)
  {
  }

  /** A status update never reprices an order: every order keeps the
      totalPrice it was created with, and the table keeps its ids. */
  lemma {:induction false} PriceIsSnapshot(t: map<OrderId, Order>, id: OrderId, s: Status)
    requires id in t
    ensures forall k :: k in t ==>
              k in WithStatus(t, id, s) && WithStatus(t, id, s)[k].totalPrice == t[k].totalPrice
    ensures WithStatus(t, id, s)[id] in UserOrders(WithStatus(t, id, s), t[id].user)
  {
    var t' := WithStatus(t, id, s);
    assert t'[id] in UserOrders(t', t[id].user);
  }

  /** In a well-formed table no two orders coincide, so `getAllOrders` returns
      one document per stored order. */
  lemma {:induction false} AllOrdersCount(t: map<OrderId, Order>)
    requires WellFormed(t)
    ensures |AllOrders(t)| == |t|
    decreases |t|
  {
    if t != map[] {
      var k :| k in t;
      var rest := t - {k};
      AllOrdersCount(rest);
      assert t.Values == rest.Values + {t[k]} by {
        forall o | o in t.Values ensures o in rest.Values + {t[k]} {
          var j :| j in t && t[j] == o;
          if j != k { assert rest[j] == o; }
        }
        forall o | o in rest.Values ensures o in t.Values {
          var j :| j in rest && rest[j] == o;
          assert t[j] == o;
        }
      }
      assert t[k] !in rest.Values by {
        forall j | j in rest ensures rest[j] != t[k] {
          assert rest[j].id == j && t[k].id == k;
        }
      }
      assert |rest| == |t| - 1 by {
        assert rest.Keys == t.Keys - {k};
      }
    }
  }

  /** The worked example: price 150, quantity 2, total 300. */
  lemma WorkedExample(id: OrderId, u: UserId, p: ProductId)
    ensures Placed(id, u, p, 150, 2).totalPrice == 300
  {
  }
}
