/**
 * The route tables of routes/authRoutes.js, routes/productRoutes.js and
 * routes/orderRoutes.js under the mount prefixes of app.js, the first-match
 * lookup, and the dispatch that runs a route's chain before its handler.
 */
module Routes {
  import opened Wrappers
  import opened OrderModel
  import opened Pipeline

  datatype Method = Get | Post | Put | Delete

  /** A path pattern segment: a literal, or a parameter such as `:id`. */
  datatype Pat = Lit(name: string) | Param

  /** A request path segment: plain text, or a well-formed document id. */
  datatype Seg = Name(text: string) | Id(oid: nat)

  datatype Handler =
    | Register | Login
    | GetProducts | GetProductById | CreateProduct | UpdateProduct | DeleteProduct
    | CreateOrder | GetUserOrders | GetAllOrders | UpdateOrderStatus

  datatype Route = Route(verb: Method, pattern: seq<Pat>, chain: seq<Step>, handler: Handler)

  const AuthMount: seq<Pat> := [Lit("api"), Lit("auth")]
  const ProductMount: seq<Pat> := [Lit("api"), Lit("products")]
  const OrderMount: seq<Pat> := [Lit("api"), Lit("orders")]

  const AuthRoutes: seq<Route> := [
    Route(Post, AuthMount + [Lit("register")], [], Register),
    Route(Post, AuthMount + [Lit("login")], [], Login)
  ]

  const ProductRoutes: seq<Route> := [
    Route(Get, ProductMount, [], GetProducts),
    Route(Get, ProductMount + [Param], [], GetProductById),
    Route(Post, ProductMount, [Protect, Admin], CreateProduct),
    Route(Put, ProductMount + [Param], [Protect, Admin], UpdateProduct),
    Route(Delete, ProductMount + [Param], [Protect, Admin], DeleteProduct)
  ]

  const OrderRoutes: seq<Route> := [
    Route(Post, OrderMount, [Protect], CreateOrder),
    Route(Get, OrderMount + [Lit("myorders")], [Protect], GetUserOrders),
    Route(Get, OrderMount, [Protect, Admin], GetAllOrders),
    Route(Put, OrderMount + [Param], [Protect, Admin], UpdateOrderStatus)
  ]

  /** The routers in the order app.js mounts them. */
  const AppRoutes: seq<Route> := AuthRoutes + ProductRoutes + OrderRoutes

  /** The handlers behind `protect, admin`. */
  predicate AdminOnlyHandler(h: Handler) {
    h in {CreateProduct, UpdateProduct, DeleteProduct, GetAllOrders, UpdateOrderStatus}
  }

  predicate SegMatches(p: Pat, s: Seg) {
    match p
    case Lit(n) => s == Name(n)
    case Param => true
  }

  predicate Matches(pattern: seq<Pat>, path: seq<Seg>) {
    |pattern| == |path| && forall i :: 0 <= i < |path| ==> SegMatches(pattern[i], path[i])
  }

  predicate Applies(r: Route, m: Method, path: seq<Seg>) {
    r.verb == m && Matches(r.pattern, path)
  }

  /** The first route, in declaration order, that takes the request. */
  function Lookup(routes: seq<Route>, m: Method, path: seq<Seg>): (r: Option<nat>)
    ensures r.Some? ==> r.value < |routes| && Applies(routes[r.value], m, path)
    ensures r.Some? ==> forall j :: 0 <= j < r.value ==> !Applies(routes[j], m, path)
    ensures r.None? ==> forall j :: 0 <= j < |routes| ==> !Applies(routes[j], m, path)
  {
    if routes == [] then None
    else if Applies(routes[0], m, path) then Some(0)
    else
      match Lookup(routes[1..], m, path)
      case None => None
      case Some(i) => Some(i + 1)
  }

  /** The segment a trailing `:id` takes, if the pattern ends in one. */
  function IdParam(pattern: seq<Pat>, path: seq<Seg>): Option<Seg> {
    if |pattern| > 0 && |path| == |pattern| && pattern[|pattern| - 1] == Param
    then Some(path[|path| - 1])
    else None
  }

  datatype Body = Body(productId: ProductId, quantity: nat, status: Option<string>)

  datatype Request = Request(verb: Method, path: seq<Seg>, auth: AuthResult, body: Body)

  /** Where a request ends up: no route takes it, a step of its route's chain
      answers it, or its handler runs with the attached user and `:id`. */
  datatype Decision =
    | NoRoute
    | Respond(code: nat, message: string)
    | Invoke(handler: Handler, user: Option<User>, id: Option<Seg>)

  function Dispatch(routes: seq<Route>, req: Request): (d: Decision)
    ensures d.NoRoute? <==> forall j :: 0 <= j < |routes| ==> !Applies(routes[j], req.verb, req.path)
    ensures d.Invoke? ==>
              exists i :: 0 <= i < |routes| && Applies(routes[i], req.verb, req.path)
                && routes[i].handler == d.handler
                && forall k :: 0 <= k < |routes[i].chain| ==> Satisfied(routes[i].chain[k], req.auth, d.user)
    ensures d.Respond? ==>
              exists i :: 0 <= i < |routes| && Applies(routes[i], req.verb, req.path)
                && RunChain(routes[i].chain, req.auth, None).Stopped?
                && RunChain(routes[i].chain, req.auth, None).code == d.code
                && RunChain(routes[i].chain, req.auth, None).message == d.message
  {
    match Lookup(routes, req.verb, req.path)
    case None => NoRoute
    case Some(i) => Decide(routes[i], req)
  }

  /** The decision once `route` has taken the request: its chain answers, or
      its handler runs. */
  function Decide(route: Route, req: Request): Decision {
    match RunChain(route.chain, req.auth, None)
    case Stopped(_, code, message) => Respond(code, message)
    case Reached(user) => Invoke(route.handler, user, IdParam(route.pattern, req.path))
  }

  /** Every route of `routes` sits under the mount whose second segment is `name`. */
  predicate Under(routes: seq<Route>, name: string) {
    forall r :: r in routes ==> |r.pattern| >= 2 && r.pattern[1] == Lit(name)
  }

  lemma MountsOfApp()
    ensures Under(AuthRoutes, "auth") && Under(ProductRoutes, "products") && Under(OrderRoutes, "orders")
  {
  }

  /** A request under one mount is taken by no route of another. */
  lemma {:induction false} OtherMount(routes: seq<Route>, name: string, m: Method, path: seq<Seg>)
    requires Under(routes, name) && |path| >= 2 && path[1] != Name(name)
    ensures Lookup(routes, m, path) == None
  {
    forall j | 0 <= j < |routes| ensures !Applies(routes[j], m, path) {
      assert routes[j] in routes;
      assert !SegMatches(routes[j].pattern[1], path[1]);
    }
  }

  function Shift(r: Option<nat>, n: nat): Option<nat> {
    if r.Some? then Some(r.value + n) else None
  }

  /** The first applying route is the only answer `Lookup` can give. */
  lemma LookupUnique(routes: seq<Route>, m: Method, path: seq<Seg>, r: Option<nat>)
    requires r.Some? ==> r.value < |routes| && Applies(routes[r.value], m, path)
    requires r.Some? ==> forall j :: 0 <= j < r.value ==> !Applies(routes[j], m, path)
    requires r.None? ==> forall j :: 0 <= j < |routes| ==> !Applies(routes[j], m, path)
    ensures Lookup(routes, m, path) == r
  {
  }

  /** Routers tried one after another: the first that takes the request wins. */
  lemma {:induction false} LookupAppend(a: seq<Route>, b: seq<Route>, m: Method, path: seq<Seg>)
    ensures Lookup(a + b, m, path)
            == if Lookup(a, m, path).Some? then Lookup(a, m, path) else Shift(Lookup(b, m, path), |a|)
  {
    var ab := a + b;
    var r := if Lookup(a, m, path).Some? then Lookup(a, m, path) else Shift(Lookup(b, m, path), |a|);
    assert forall j :: 0 <= j < |a| ==> ab[j] == a[j];
    assert forall j :: |a| <= j < |ab| ==> ab[j] == b[j - |a|];
    LookupUnique(ab, m, path, r);
  }

  /** A route takes the request when it applies and no earlier one does. */
  lemma {:induction false} LookupFirst(routes: seq<Route>, m: Method, path: seq<Seg>, i: nat)
    requires i < |routes| && Applies(routes[i], m, path)
    requires forall r :: r in routes[..i] ==> !Applies(r, m, path)
    ensures Lookup(routes, m, path) == Some(i)
  {
    assert forall j :: 0 <= j < i ==> routes[j] in routes[..i];
  }

  /** A request under /api/orders is decided by the order router alone. */
  lemma {:induction false} AppOrders(m: Method, path: seq<Seg>)
    requires |path| >= 2 && path[1] == Name("orders")
    ensures Lookup(AppRoutes, m, path) == Shift(Lookup(OrderRoutes, m, path), 7)
  {
    MountsOfApp();
    OtherMount(AuthRoutes, "auth", m, path);
    OtherMount(ProductRoutes, "products", m, path);
    LookupAppend(AuthRoutes, ProductRoutes, m, path);
    LookupAppend(AuthRoutes + ProductRoutes, OrderRoutes, m, path);
  }

  /** A request under /api/products is decided by the product router alone. */
  lemma {:induction false} AppProducts(m: Method, path: seq<Seg>)
    requires |path| >= 2 && path[1] == Name("products")
    requires Lookup(ProductRoutes, m, path).Some?
    ensures Lookup(AppRoutes, m, path) == Shift(Lookup(ProductRoutes, m, path), 2)
  {
    MountsOfApp();
    OtherMount(AuthRoutes, "auth", m, path);
    LookupAppend(AuthRoutes, ProductRoutes, m, path);
    LookupAppend(AuthRoutes + ProductRoutes, OrderRoutes, m, path);
  }

  /** A request the order router takes at `k` is decided by that route. */
  lemma {:induction false} OrderVia(req: Request, k: nat)
    requires |req.path| >= 2 && req.path[1] == Name("orders")
    requires Lookup(OrderRoutes, req.verb, req.path) == Some(k)
    ensures Dispatch(AppRoutes, req) == Decide(OrderRoutes[k], req)
  {
    AppOrders(req.verb, req.path);
    assert AppRoutes[k + 7] == OrderRoutes[k];
  }

  /** A request the product router takes at `k` is decided by that route. */
  lemma {:induction false} ProductVia(req: Request, k: nat)
    requires |req.path| >= 2 && req.path[1] == Name("products")
    requires Lookup(ProductRoutes, req.verb, req.path) == Some(k)
    ensures Dispatch(AppRoutes, req) == Decide(ProductRoutes[k], req)
  {
    AppProducts(req.verb, req.path);
    assert AppRoutes[k + 2] == ProductRoutes[k];
  }

  lemma OrderRouter(id: Seg)
    ensures Lookup(OrderRoutes, Post, [Name("api"), Name("orders")]) == Some(0)
    ensures Lookup(OrderRoutes, Get, [Name("api"), Name("orders"), Name("myorders")]) == Some(1)
    ensures Lookup(OrderRoutes, Get, [Name("api"), Name("orders")]) == Some(2)
    ensures Lookup(OrderRoutes, Put, [Name("api"), Name("orders"), id]) == Some(3)
  {
    LookupFirst(OrderRoutes, Get, [Name("api"), Name("orders")], 2);
    LookupFirst(OrderRoutes, Put, [Name("api"), Name("orders"), id], 3);
  }

  lemma ProductRouter(id: Seg)
    ensures Lookup(ProductRoutes, Get, [Name("api"), Name("products")]) == Some(0)
    ensures Lookup(ProductRoutes, Get, [Name("api"), Name("products"), id]) == Some(1)
    ensures Lookup(ProductRoutes, Post, [Name("api"), Name("products")]) == Some(2)
    ensures Lookup(ProductRoutes, Put, [Name("api"), Name("products"), id]) == Some(3)
    ensures Lookup(ProductRoutes, Delete, [Name("api"), Name("products"), id]) == Some(4)
  {
    LookupFirst(ProductRoutes, Get, [Name("api"), Name("products"), id], 1);
    LookupFirst(ProductRoutes, Post, [Name("api"), Name("products")], 2);
    LookupFirst(ProductRoutes, Put, [Name("api"), Name("products"), id], 3);
    LookupFirst(ProductRoutes, Delete, [Name("api"), Name("products"), id], 4);
  }

  /** `POST /api/orders` and `GET /api/orders/myorders` need `protect` only:
      any verified user, admin or not, reaches the handler. */
  lemma {:induction false} SignedInOrderRoutes(auth: AuthResult, body: Body)
    ensures Dispatch(AppRoutes, Request(Post, [Name("api"), Name("orders")], auth, body))
            == if auth.Verified? then Invoke(CreateOrder, Some(auth.user), None) else Respond(401, auth.message)
    ensures Dispatch(AppRoutes, Request(Get, [Name("api"), Name("orders"), Name("myorders")], auth, body))
            == if auth.Verified? then Invoke(GetUserOrders, Some(auth.user), None) else Respond(401, auth.message)
  {
    OrderRouter(Name("myorders"));
    OrderVia(Request(Post, [Name("api"), Name("orders")], auth, body), 0);
    DecideByChain(OrderRoutes[0], Request(Post, [Name("api"), Name("orders")], auth, body));
    OrderVia(Request(Get, [Name("api"), Name("orders"), Name("myorders")], auth, body), 1);
    DecideByChain(OrderRoutes[1], Request(Get, [Name("api"), Name("orders"), Name("myorders")], auth, body));
  }

  /** The admin answer: 401 without a verified user, 403 for a verified
      non-admin, and the handler for an admin. */
  function AdminOutcome(auth: AuthResult, h: Handler, id: Option<Seg>): Decision {
    if auth.Refused? then Respond(401, auth.message)
    else if auth.user.role == AdminRole then Invoke(h, Some(auth.user), id)
    else Respond(403, AdminOnly)
  }

  /** What each of the three declared chains decides once its route has
      taken the request. */
  lemma {:induction false} DecideByChain(r: Route, req: Request)
    ensures r.chain == [] ==> Decide(r, req) == Invoke(r.handler, None, IdParam(r.pattern, req.path))
    ensures r.chain == [Protect] ==>
              Decide(r, req) == if req.auth.Verified? then Invoke(r.handler, Some(req.auth.user), IdParam(r.pattern, req.path))
                                else Respond(401, req.auth.message)
    ensures r.chain == [Protect, Admin] ==>
              Decide(r, req) == AdminOutcome(req.auth, r.handler, IdParam(r.pattern, req.path))
  {
    ChainsOfRouteFiles(req.auth);
  }

  /** `GET /api/orders` and `PUT /api/orders/:id` need `protect, admin`. */
  lemma {:induction false} AdminOrderRoutes(auth: AuthResult, body: Body, id: Seg)
    ensures Dispatch(AppRoutes, Request(Get, [Name("api"), Name("orders")], auth, body))
            == AdminOutcome(auth, GetAllOrders, None)
    ensures Dispatch(AppRoutes, Request(Put, [Name("api"), Name("orders"), id], auth, body))
            == AdminOutcome(auth, UpdateOrderStatus, Some(id))
  {
    OrderRouter(id);
    OrderVia(Request(Get, [Name("api"), Name("orders")], auth, body), 2);
    DecideByChain(OrderRoutes[2], Request(Get, [Name("api"), Name("orders")], auth, body));
    OrderVia(Request(Put, [Name("api"), Name("orders"), id], auth, body), 3);
    DecideByChain(OrderRoutes[3], Request(Put, [Name("api"), Name("orders"), id], auth, body));
  }

  /** `GET /api/products` and `GET /api/products/:id` reach their handlers
      with no gate at all, whatever the credentials. */
  lemma {:induction false} PublicProductRoutes(auth: AuthResult, body: Body, id: Seg)
    ensures Dispatch(AppRoutes, Request(Get, [Name("api"), Name("products")], auth, body))
            == Invoke(GetProducts, None, None)
    ensures Dispatch(AppRoutes, Request(Get, [Name("api"), Name("products"), id], auth, body))
            == Invoke(GetProductById, None, Some(id))
  {
    ProductRouter(id);
    ProductVia(Request(Get, [Name("api"), Name("products")], auth, body), 0);
    DecideByChain(ProductRoutes[0], Request(Get, [Name("api"), Name("products")], auth, body));
    ProductVia(Request(Get, [Name("api"), Name("products"), id], auth, body), 1);
    DecideByChain(ProductRoutes[1], Request(Get, [Name("api"), Name("products"), id], auth, body));
  }

  /** `POST`, `PUT /:id` and `DELETE /:id` under /api/products need
      `protect, admin`. */
  lemma {:induction false} AdminProductRoutes(auth: AuthResult, body: Body, id: Seg)
    ensures Dispatch(AppRoutes, Request(Post, [Name("api"), Name("products")], auth, body))
            == AdminOutcome(auth, CreateProduct, None)
    ensures Dispatch(AppRoutes, Request(Put, [Name("api"), Name("products"), id], auth, body))
            == AdminOutcome(auth, UpdateProduct, Some(id))
    ensures Dispatch(AppRoutes, Request(Delete, [Name("api"), Name("products"), id], auth, body))
            == AdminOutcome(auth, DeleteProduct, Some(id))
  {
    ProductRouter(id);
    ProductVia(Request(Post, [Name("api"), Name("products")], auth, body), 2);
    DecideByChain(ProductRoutes[2], Request(Post, [Name("api"), Name("products")], auth, body));
    ProductVia(Request(Put, [Name("api"), Name("products"), id], auth, body), 3);
    DecideByChain(ProductRoutes[3], Request(Put, [Name("api"), Name("products"), id], auth, body));
    ProductVia(Request(Delete, [Name("api"), Name("products"), id], auth, body), 4);
    DecideByChain(ProductRoutes[4], Request(Delete, [Name("api"), Name("products"), id], auth, body));
  }

  /** Register and login are ungated. */
  lemma {:induction false} OpenAuthRoutes(auth: AuthResult, body: Body)
    ensures Dispatch(AppRoutes, Request(Post, [Name("api"), Name("auth"), Name("register")], auth, body))
            == Invoke(Register, None, None)
    ensures Dispatch(AppRoutes, Request(Post, [Name("api"), Name("auth"), Name("login")], auth, body))
            == Invoke(Login, None, None)
  {
    LookupFirst(AppRoutes, Post, [Name("api"), Name("auth"), Name("register")], 0);
    assert AppRoutes[..1] == [AuthRoutes[0]];
    assert !SegMatches(AuthRoutes[0].pattern[2], Name("login"));
    LookupFirst(AppRoutes, Post, [Name("api"), Name("auth"), Name("login")], 1);
    ChainsOfRouteFiles(auth);
  }

  /** The chain a route declares for its handler. */
  predicate ChainFits(r: Route) {
    && (AdminOnlyHandler(r.handler) ==> r.chain == [Protect, Admin])
    && (r.handler in {CreateOrder, GetUserOrders} ==> r.chain == [Protect])
  }

  lemma ChainsOfRouters()
    ensures forall r :: r in AuthRoutes ==> ChainFits(r)
    ensures forall r :: r in ProductRoutes ==> ChainFits(r)
    ensures forall r :: r in OrderRoutes ==> ChainFits(r)
  {
  }

  /** Which chain guards which handler, across the whole application. */
  lemma {:induction false} ChainsOfApp()
    ensures forall r :: r in AppRoutes ==> ChainFits(r)
  {
    ChainsOfRouters();
    assert forall r :: r in AppRoutes ==> r in AuthRoutes || r in ProductRoutes || r in OrderRoutes;
  }

  /** Whatever the request, an admin-only handler runs only for the verified
      user whose role is "admin"; a request that does not get that far never
      reaches it. */
  lemma {:induction false} AdminHandlersNeedAdmin(req: Request)
    requires Dispatch(AppRoutes, req).Invoke? && AdminOnlyHandler(Dispatch(AppRoutes, req).handler)
    ensures req.auth.Verified? && Dispatch(AppRoutes, req).user == Some(req.auth.user)
    ensures req.auth.user.role == AdminRole
  {
    var d := Dispatch(AppRoutes, req);
    var i :| 0 <= i < |AppRoutes| && Applies(AppRoutes[i], req.verb, req.path)
             && AppRoutes[i].handler == d.handler
             && forall k :: 0 <= k < |AppRoutes[i].chain| ==> Satisfied(AppRoutes[i].chain[k], req.auth, d.user);
    ChainsOfApp();
    assert AppRoutes[i] in AppRoutes;
    assert Satisfied(AppRoutes[i].chain[0], req.auth, d.user);
    assert Satisfied(AppRoutes[i].chain[1], req.auth, d.user);
  }

  /** The handlers behind `protect` see the verified user. */
  lemma {:induction false} SignedInHandlersSeeUser(req: Request)
    requires Dispatch(AppRoutes, req).Invoke?
    requires Dispatch(AppRoutes, req).handler in {CreateOrder, GetUserOrders}
    ensures req.auth.Verified? && Dispatch(AppRoutes, req).user == Some(req.auth.user)
  {
    var d := Dispatch(AppRoutes, req);
    var i :| 0 <= i < |AppRoutes| && Applies(AppRoutes[i], req.verb, req.path)
             && AppRoutes[i].handler == d.handler
             && forall k :: 0 <= k < |AppRoutes[i].chain| ==> Satisfied(AppRoutes[i].chain[k], req.auth, d.user);
    ChainsOfApp();
    assert AppRoutes[i] in AppRoutes;
    assert Satisfied(AppRoutes[i].chain[0], req.auth, d.user);
  }
}
