# Orders and route gating of an Express/Mongoose e-commerce backend

This project models the order side of a small shop backend:

- the order document and its schema rules (`models/orderModel.js`);
- the four order handlers (`controllers/orderController.js`):
  - `createOrder`, which prices and stores an order;
  - `getUserOrders`, which lists the caller's orders;
  - `getAllOrders`, which lists every order;
  - `updateOrderStatus`, which moves an order to another status;
- the `admin` gate and the route tables of `routes/orderRoutes.js` and
  `routes/productRoutes.js`, mounted with the auth router as `app.js` does.

The modules follow the program's structure:

- `OrderModel`: the schema.
  - `Order` is a stored document and `OrderFields` is what `Order.create` is handed.
  - `Cast` applies the defaults (quantity 1, status `Pending`) and checks the required paths and the status enum. It either stores the document or fails with the set of offending paths.
- `OrderController`: the handlers.
  - `OrderStore` is a class holding the order table and the product catalog as maps keyed by document id.
  - `createOrder` and `updateOrderStatus` change the table, so they are methods of `OrderStore`. Each is proved against a predicate over the old table, the new table and the response (`Created`, `Updated`).
  - The two queries are functions of the table.
- `Pipeline`: the gates.
  - `protect` appears only through its verdict: either a verified user, or a refusal answered with 401.
  - `admin` answers 403 unless the attached user's role is exactly `"admin"`. Both route files declare it with the same text, so it is modelled once.
  - A chain runs its steps in order, and the first step that answers ends it.
- `Routes`: the application's route table.
  - It is the auth, product and order routers in mount order.
  - Lookup returns the first route in declaration order that matches.
  - `Dispatch` routes a request, runs the route's chain and either answers it or names the handler to run.
- `Server`: one request end to end.
  - `Handle` dispatches the request and runs the order handler it names against the store.
  - Four small client methods follow the test file's order flow: `PlaceOrder` places an order, `ShipOrder` ships one, `NonAdminUpdate` shows a non-admin's status update refused, and `Scenario` places an order, finds it in the admin's full list and ships it. The test file's product deletion (userController.test.js:79-86) is left out of that flow.

Ids are natural numbers. A fresh order id is any id not in the table. A path segment is either a name or a document id. A segment that is not a document id, in an `:id` position, makes the handler's `findById` throw, and the request is answered 500.

## Model

| member | source | states |
|---|---|---|
| OrderModel.ParseStatus | models/orderModel.js:24-28 | a string is accepted exactly when it is the name of one of Pending, Shipped, Delivered, and then it gives that status |
| OrderModel.Problems | models/orderModel.js:4-28 | the invalid paths are exactly: user, product or totalPrice when absent, and status when present but outside the enum; quantity is never reported because it has a default |
| OrderModel.Cast | models/orderModel.js:4-28 | a create succeeds iff user, product and totalPrice are present and the status is absent or in the enum; the document keeps the given values, quantity defaults to 1 and status to Pending; a failure reports a non-empty set of the offending paths |
| OrderModel.CastFieldsOf | models/orderModel.js:4-28 | passing a stored document's own fields back through the schema gives the same document |
| OrderModel.DefaultsApplied | models/orderModel.js:15-19 | a create without quantity and status stores quantity 1 and status Pending |
| OrderModel.RequiredPaths | models/orderModel.js:5-23 | a create missing user, product or totalPrice fails, and names each missing path |
| OrderController.UserOrders | controllers/orderController.js:32-39 | the caller's list holds exactly the stored orders whose user is the caller |
| OrderController.AllOrders | controllers/orderController.js:42-49 | the full list holds every stored order, and in a well-formed table each listed order is stored under its own id |
| OrderController.ResolveStatus | controllers/orderController.js:62-63 | an absent or empty status keeps the current one; any other string gives the status it names and fails (save rejects it) when it names none |
| OrderController.WithStatus | controllers/orderController.js:62-65 | the update changes only the status of the one order, keeps every other order and the set of ids, and keeps the table well formed |
| OrderController.Placed | controllers/orderController.js:16-23 | the created order belongs to the caller, refers to the product, has the requested quantity, a total of price times quantity, and status Pending |
| OrderController.FreshIdExists | controllers/orderController.js:18-23 | a finite table always leaves an id free that is larger than every id in use |
| OrderController.Created | controllers/orderController.js:6-29 | the specification of `createOrder`: an unknown product gives 404 "Product not found" and the same table; otherwise a 201 answer with the placed order, under an id not in the table, and the table with that order added |
| OrderController.Updated | controllers/orderController.js:52-69 | the specification of `updateOrderStatus`: an unknown id gives 404 "Order not found" and the same table; a status the save rejects gives 500 and the same table; otherwise the table with the order's status replaced and a 200 answer with the saved order |
| OrderController.OrderStore.CreateOrder | controllers/orderController.js:6-29 | an unknown product is answered 404 "Product not found" and the table is unchanged; otherwise one new order is stored under a fresh id and answered 201 |
| OrderController.OrderStore.UpdateOrderStatus | controllers/orderController.js:52-69 | an unknown id is answered 404 "Order not found"; a status outside the enum is answered 500 and changes nothing; otherwise the order's status is updated and the saved document is answered 200 |
| OrderController.UserOrdersPartition | controllers/orderController.js:32-49 | each user's list is part of the full list, two users' lists are disjoint, and every stored order is in its owner's list |
| OrderController.UserOrdersAfterCreate | controllers/orderController.js:18-23 | storing a new order adds it to its owner's list and to no other user's list |
| OrderController.UpdateTwice | controllers/orderController.js:52-69 | sending the same status update twice leaves the table as the first call left it, and gives the same answer |
| OrderController.CreatedAddsOne | controllers/orderController.js:6-29 | a create keeps every existing order, stores exactly one more when the product exists, and leaves other users' lists unchanged |
| OrderController.StatusUnconstrained | controllers/orderController.js:62 | any status may replace any other, Delivered back to Pending included |
| OrderController.PriceIsSnapshot | controllers/orderController.js:62-63 | a status update never changes any order's total, and the updated order stays in its owner's list |
| OrderController.AllOrdersCount | controllers/orderController.js:44 | the full list has one entry per stored order |
| OrderController.WorkedExample | userController.test.js:117-128 | two units at price 150 are charged 300 |
| Pipeline.AdminGate | routes/orderRoutes.js:13-19 | the gate passes iff a user is attached and its role is exactly "admin", passes that user on unchanged, and otherwise answers 403 "Admin access only" |
| Pipeline.ProtectGate | routes/orderRoutes.js:22-27 | a verified request passes with its user attached; a refused one is answered 401 with the refusal's message |
| Pipeline.RunStep | routes/orderRoutes.js:9-19 | one step of a chain: `protect` gives its verdict, `admin` checks the user attached so far |
| Pipeline.RunChain | routes/orderRoutes.js:22-27 | a chain reaches the handler only when every step is satisfied by the user it ends with; when it stops, it stops at the first step that answers, every earlier step having passed, with that step's code and message |
| Pipeline.PrefixAttached | routes/orderRoutes.js:22-27 | running the first step and then part of the rest attaches what running that longer part of the whole chain attaches |
| Pipeline.ChainReachesIff | routes/orderRoutes.js:22-27 | when every admin step comes after a protect step, a chain reaches the handler iff every step is satisfied |
| Pipeline.ChainsOfRouteFiles | routes/productRoutes.js:23-29 | no gate always passes; protect passes exactly the verified; protect then admin answers 401 for the unverified, 403 for a non-admin, and passes an admin |
| Routes.AuthRoutes | routes/authRoutes.js:7-8 | `POST /api/auth/register` and `POST /api/auth/login`, with no gate |
| Routes.ProductRoutes | routes/productRoutes.js:23-29 | the five product routes in declaration order: the two GETs ungated, POST, PUT `/:id` and DELETE `/:id` behind protect then admin |
| Routes.OrderRoutes | routes/orderRoutes.js:22-27 | the four order routes in declaration order: POST and GET `/myorders` behind protect, GET and PUT `/:id` behind protect then admin |
| Routes.AppRoutes | app.js:21-23 | the auth, product and order routers in mount order |
| Routes.Lookup | app.js:21-23 | the route found is the first in declaration order that takes the method and path; none is found only when no route takes them |
| Routes.Dispatch | app.js:21-23 | no route, exactly when none applies; a handler runs only when its route applies and every step of the route's chain is satisfied; an answer from a gate is the code and message of the step the chain stopped at |
| Routes.Decide | routes/orderRoutes.js:22-27 | once a route has taken a request, its chain either answers it with the stopping step's code and message, or its handler runs with the user attached and the `:id` segment |
| Routes.MountsOfApp | app.js:21-23 | each router's routes sit under its own mount |
| Routes.OtherMount | app.js:21-23 | a path under one mount is taken by no route of another router |
| Routes.LookupUnique | app.js:21-23 | the first route that takes the request is the only one the lookup can find, and none is found only when no route takes it |
| Routes.LookupAppend | app.js:21-23 | looking a request up in routers mounted one after the other finds it in the first router that takes it |
| Routes.LookupFirst | app.js:21-23 | a route that takes the request, with no earlier route taking it, is the one found |
| Routes.AppOrders | app.js:21-23 | an order-router path is looked up in the order router alone |
| Routes.AppProducts | app.js:21-23 | a path the product router takes is looked up in the product router alone |
| Routes.OrderVia | app.js:21-23 | a request the order router takes is decided by the order route it matches |
| Routes.ProductVia | app.js:21-23 | a request the product router takes is decided by the product route it matches |
| Routes.DecideByChain | routes/productRoutes.js:23-29 | once a route has taken a request: no gate runs the handler with no user; protect runs it for the verified user or answers 401; protect then admin answers 401, 403 for a non-admin, or runs it for an admin |
| Routes.OrderRouter | routes/orderRoutes.js:22-27 | each order route is the one found for its method and path; `/myorders` comes before `/:id` |
| Routes.ProductRouter | routes/productRoutes.js:23-29 | each product route is the one found for its method and path |
| Routes.SignedInOrderRoutes | routes/orderRoutes.js:22-23 | placing an order and listing one's own orders need only protect: any verified user reaches the handler, and any other request is answered 401 |
| Routes.AdminOrderRoutes | routes/orderRoutes.js:13-27 | listing all orders and updating an order's status answer 401 without a verified user, 403 for a non-admin, and reach the handler for an admin |
| Routes.PublicProductRoutes | routes/productRoutes.js:23-24 | listing products and reading one product reach the handler whatever the credentials |
| Routes.AdminProductRoutes | routes/productRoutes.js:14-29 | creating, updating and deleting a product answer 401 without a verified user, 403 for a non-admin, and reach the handler for an admin |
| Routes.OpenAuthRoutes | routes/authRoutes.js:7-8 | register and login reach their handlers with no gate |
| Routes.ChainsOfRouters | routes/orderRoutes.js:22-27 | in each router, every admin-only handler is behind protect then admin, and placing and listing one's own orders are behind protect alone |
| Routes.ChainsOfApp | app.js:21-23 | the same holds for every route of the application |
| Routes.AdminHandlersNeedAdmin | routes/orderRoutes.js:26-27 | whatever the request, an admin-only handler runs only for a verified user whose role is "admin", and sees that user |
| Routes.SignedInHandlersSeeUser | routes/orderRoutes.js:22-23 | placing an order or listing one's own orders runs only for a verified user, and sees that user |
| Server.Handle | controllers/orderController.js:6-69 | a request changes the order table only by reaching createOrder as a verified user, or updateOrderStatus as an admin; each handler's answer and new table are those its contract states; gate answers and unrouted requests change nothing; an `:id` that is not a document id is answered 500 "Server Error" and changes nothing; a product or auth handler is reported as reached and changes nothing; the catalog never changes |
| Server.NonAdminUpdate | routes/orderRoutes.js:27 | a verified non-admin's status update is answered 403 and changes nothing |
| Server.PlaceOrder | userController.test.js:117-128 | ordering two units of a product priced 150 stores an order for the shopper with total 300 and status Pending |
| Server.ShipOrder | userController.test.js:150-161 | an admin's update to Shipped answers 200 with the order, now Shipped, and changes nothing else |
| Server.Scenario | userController.test.js:117-161 | an order placed by a user appears in the admin's full list and can then be shipped |

## Left out

- The database and `populate`: the table is an in-memory map. The lists are sets, so the order of query results is not modelled, and `populate` joins are left out.
- The timestamps the schema adds are not part of the model.
- The generic `catch` branches that answer 500 "Server Error" when the store itself fails are not modelled. The only 500s modelled are a rejected status on save and a non-id `:id` segment.
- JavaScript numbers are modelled as natural numbers:
  - no floating point;
  - no negative or fractional quantities or prices;
  - no `NaN` total from a missing or non-numeric quantity.
- `createOrder` with a missing or malformed `productId` is not modelled: the body's product id is always a well-formed id.
- The order schema's `ref` paths are plain ids: nothing checks that the referenced user or product exists.
- CreateOrder: a quantity of 0 is accepted, because the schema and the handler do not check that a quantity is positive. Nothing in the schema or the handler requires a positive quantity, and the model follows the code.
- CreateOrder: the product's stock is neither checked nor decremented, as in the code.
- `protect` is modelled only through its verdict (a user or a 401 refusal). Token parsing, users and login are not part of this model.
- The bodies of the product and auth handlers are not part of this model. A request that reaches one is reported as handed to that handler.
- Express path matching is modelled as exact and case-sensitive. Trailing slashes, case-insensitive matching, static serving and the default 404 for an unrouted request (modelled as `Unrouted`) are left out.
- Server.ShipOrder: the test file expects the update's body to carry the message "Order updated". The handler answers with the saved order instead, and the model follows the handler.
- The route file requires the controller as `../Controllers/orderController` (capital C). Whether that path resolves depends on the file system, which is outside the model; the routes are modelled as bound to the order handlers.
- Concurrency and the interleaving of requests are left out: requests are handled one at a time.
