/**
 * One request end to end: route it, run its chain, and only then run the
 * order handler it names against the store. Product and auth handlers are
 * not part of this model; a request that reaches one is reported as handed
 * over to it.
 */
module Server {
  import opened Wrappers
  import opened OrderModel
  import opened OrderController
  import opened Pipeline
  import opened Routes

  datatype Outcome =
    | Answered(response: Response)
    | Unrouted
    | Forwarded(handler: Handler)

  method Handle(store: OrderStore, req: Request) returns (out: Outcome)
    requires store.Valid()
    modifies store
    ensures store.Valid() && store.products == old(store.products)
    ensures var d := Dispatch(AppRoutes, req);
            d.NoRoute? ==> out == Unrouted && store.orders == old(store.orders)
    ensures var d := Dispatch(AppRoutes, req);
            d.Respond? ==> out == Answered(Message(d.code, d.message)) && store.orders == old(store.orders)
    ensures var d := Dispatch(AppRoutes, req);
            store.orders != old(store.orders) ==>
              && d.Invoke? && req.auth.Verified?
              && (d.handler == CreateOrder || (d.handler == UpdateOrderStatus && req.auth.user.role == AdminRole))
    ensures var d := Dispatch(AppRoutes, req);
            d.Invoke? && d.handler == CreateOrder ==>
              && req.auth.Verified? && out.Answered?
              && Created(old(store.orders), store.orders, store.products,
                         req.auth.user.id, req.body.productId, req.body.quantity, out.response)
    ensures var d := Dispatch(AppRoutes, req);
            d.Invoke? && d.handler == UpdateOrderStatus && d.id.Some? && d.id.value.Id? ==>
              && req.auth.Verified? && req.auth.user.role == AdminRole && out.Answered?
              && Updated(old(store.orders), store.orders, d.id.value.oid, req.body.status, out.response)
    ensures var d := Dispatch(AppRoutes, req);
            d.Invoke? && d.handler == GetUserOrders ==>
              req.auth.Verified? && out == Answered(OrderList(200, UserOrders(old(store.orders), req.auth.user.id)))
    ensures var d := Dispatch(AppRoutes, req);
            d.Invoke? && d.handler == GetAllOrders ==>
              req.auth.Verified? && req.auth.user.role == AdminRole
              && out == Answered(OrderList(200, AllOrders(old(store.orders))))
    ensures var d := Dispatch(AppRoutes, req);
            d.Invoke? && d.handler == UpdateOrderStatus && !(d.id.Some? && d.id.value.Id?) ==>
              out == Answered(Message(500, ServerError)) && store.orders == old(store.orders)
    ensures var d := Dispatch(AppRoutes, req);
            d.Invoke? && d.handler !in {CreateOrder, GetUserOrders, GetAllOrders, UpdateOrderStatus} ==>
              out == Forwarded(d.handler) && store.orders == old(store.orders)
  {
    var d := Dispatch(AppRoutes, req);
    match d
    case NoRoute =>
      out := Unrouted;
    case Respond(code, message) =>
      out := Answered(Message(code, message));
    case Invoke(h, user, id) =>
      if h == CreateOrder || h == GetUserOrders {
        SignedInHandlersSeeUser(req);
      }
      if AdminOnlyHandler(h) {
        AdminHandlersNeedAdmin(req);
      }
      if h == CreateOrder {
        var r := store.CreateOrder(user.value.id, req.body.productId, req.body.quantity);
        out := Answered(r);
      } else if h == GetUserOrders {
        out := Answered(OrderList(200, UserOrders(store.orders, user.value.id)));
      } else if h == GetAllOrders {
        out := Answered(OrderList(200, AllOrders(store.orders)));
      } else if h == UpdateOrderStatus {
        if id.Some? && id.value.Id? {
          var r := store.UpdateOrderStatus(id.value.oid, req.body.status);
          out := Answered(r);
        } else {
          // an `:id` that is not a document id makes the lookup throw
          out := Answered(Message(500, ServerError));
        }
      } else {
        out := Forwarded(h);
      }
  }

  /** A verified caller who is not an admin cannot change an order's status:
      the gate answers 403 and the table is as it was. */
  method NonAdminUpdate(store: OrderStore, caller: User, id: Seg, body: Body) returns (out: Outcome)
    requires store.Valid() && caller.role != AdminRole
    modifies store
    ensures out == Answered(Message(403, AdminOnly))
    ensures store.orders == old(store.orders) && store.products == old(store.products)
  {
    var req := Request(Put, [Name("api"), Name("orders"), id], Verified(caller), body);
    AdminOrderRoutes(Verified(caller), body, id);
    out := Handle(store, req);
  }

  /** A shopper orders two units of a product priced 150 and is charged 300. */
  method PlaceOrder(store: OrderStore, shopper: User) returns (placed: Order)
    requires store.Valid() && store.products == map[1 := Product(150, 10)]
    modifies store
    ensures store.Valid() && store.products == old(store.products)
    ensures placed.id in store.orders && store.orders[placed.id] == placed
    ensures placed.totalPrice == 300 && placed.status == Pending && placed.user == shopper.id
  {
    var body := Body(1, 2, None);
    var req := Request(Post, [Name("api"), Name("orders")], Verified(shopper), body);
    SignedInOrderRoutes(Verified(shopper), body);
    var created := Handle(store, req);
    placed := created.response.order;
  }

  /** An admin marks an order Shipped; nothing else about it changes. */
  method ShipOrder(store: OrderStore, admin: User, id: OrderId) returns (shipped: Outcome)
    requires store.Valid() && admin.role == AdminRole && id in store.orders
    modifies store
    ensures store.Valid() && store.products == old(store.products)
    ensures shipped == Answered(OrderBody(200, old(store.orders)[id].(status := Shipped)))
    ensures store.orders == old(store.orders)[id := old(store.orders)[id].(status := Shipped)]
  {
    var update := Body(0, 0, Some("Shipped"));
    var req := Request(Put, [Name("api"), Name("orders"), Id(id)], Verified(admin), update);
    AdminOrderRoutes(Verified(admin), update, Id(id));
    assert Dispatch(AppRoutes, req) == Invoke(UpdateOrderStatus, Some(admin), Some(Id(id)));
    assert ResolveStatus(store.orders[id].status, update.status) == Some(Shipped);
    shipped := Handle(store, req);
  }

  /** The usual flow: a user orders two units of a product priced 150 and is
      charged 300; an admin finds the order in the full list and ships it. */
  method Scenario() returns (placed: Order, listed: Outcome, shipped: Outcome)
    ensures placed.totalPrice == 300 && placed.user == 2
    ensures listed.Answered? && listed.response.OrderList? && placed in listed.response.orders
    ensures shipped == Answered(OrderBody(200, placed.(status := Shipped)))
  {
    var store := new OrderStore(map[1 := Product(150, 10)]);
    var admin := User(1, "admin");
    placed := PlaceOrder(store, User(2, "user"));
    var body := Body(0, 0, None);
    AdminOrderRoutes(Verified(admin), body, Id(placed.id));
    listed := Handle(store, Request(Get, [Name("api"), Name("orders")], Verified(admin), body));
    shipped := ShipOrder(store, admin, placed.id);
  }
}
