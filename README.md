# DeliverUS order rules in Dafny

This project models the order rules of DeliverUS, a food-delivery application
made of an Express/Sequelize backend and a React Native customer app, and
proves properties of them.

On the backend side the model covers:

- the order middlewares: ownership, visibility, the three lifecycle gates,
  the restaurant-exists check and the stored-product check;
- the express-validator rules for creating and updating an order;
- the check chains the order routes put in front of each controller action.

On the frontend side the model covers three screens:

- the order-editing screen: the quantity map, its subtotal and total, and
  the save payload;
- the restaurant screen: parallel arrays updated in place, and the rule for
  which controls a row shows;
- the confirm-order screen: the lines built from a quantity map, the client
  schema, and validate-then-create.

Layout, one module per source file plus two shared modules:

- `Js` holds JavaScript values as the code sees them:
  - `Num`, a number field of a request body: `undefined`, `null`, `NaN` or
    an integer, with the code's `<= 0`, truthiness, `===` and `exists()` on it
    (`null <= 0` holds, `undefined <= 0` does not);
  - `Option`, a value that is missing, or the `NaN` of `parseInt`, where the
    code does not tell the cases apart;
  - a flag that may be a number or a boolean, so that loose `!=` and strict
    `!==` differ.
- `Orders` holds the backend records:
  - an order with three nullable timestamps, and its stage;
  - a store of orders and restaurants, which stands in for `findByPk`;
  - a request body;
  - `Verdict`, the outcome of one middleware: `next()`, a response with a
    status and a message, a refusal by a guard whose body is not modelled,
    or neither.
- `OrderMiddleware`, `OrderValidation` and `OrderRoutes` cover the backend.
  A route is a list of `Step`s. `RunChain` stops at the first middleware
  that does not call `next()`.
- `EntryOrder` gives the order in which `Object.entries` lists integer-like
  keys, which is ascending. JavaScript lists only array-index keys (integers
  of 0 or more) in ascending order; product ids are positive database keys,
  so the model's keys are taken to be such ids.
- `EditOrderScreen`, `RestaurantDetailScreen` and `ConfirmOrderScreen` cover
  the screens.
  - State the screens change in place becomes a class with `modifies`
    clauses.
  - The restaurant screen's pairs and quantities are arrays.
  - Prices are integer cents, so the 10-euro shipping threshold is 1000.

The following choices apply throughout:

- A missing order, or a missing user, inside a middleware that reads it
  raises a TypeError. The surrounding `catch` answers that with 500. The
  model answers `Respond(500, MissingRow)`, where `MissingRow` stands for the
  error text.
- The controller actions are not part of this model. Their effect is taken
  to be one of two things:
  - confirm, send and deliver set `startedAt`, `sentAt` and `deliveredAt`
    to a `now` parameter;
  - delete removes the order.
- An express-validator rule list runs every validator of every `check()`
  chain; no chain stops at its first failure. Each failing built-in validator
  adds one "Invalid value" error, so a missing `restaurantId` fails both
  `exists()` and `isInt()`. Each failing custom validator adds its own
  message.

## Model

| member | source | states |
|---|---|---|
| Js.StrictOneIsLooseOne | DeliverUS-Backend/src/controllers/validation/OrderValidation.js:31 | an availability the strict `!== 1` test accepts is accepted by the loose `!= 1` test of the middleware; `true` passes the loose test and fails the strict one |
| Orders.StageOf | DeliverUS-Backend/src/middlewares/OrderMiddleware.js:57-96 | a well-formed order is pending exactly when `startedAt` is unset, and delivered exactly when `deliveredAt` is set |
| OrderMiddleware.CheckOrderCustomer | DeliverUS-Backend/src/middlewares/OrderMiddleware.js:4-14 | calls `next()` iff the order exists and the requester is its customer; 403 "Not enough privileges…" for another user; 500 when the order is missing |
| OrderMiddleware.CheckRestaurantExists | DeliverUS-Backend/src/middlewares/OrderMiddleware.js:17-29 | calls `next()` iff the body's `restaurantId` names a restaurant, else 409 "Restaurant not found" |
| OrderMiddleware.IsPending | DeliverUS-Backend/src/middlewares/OrderMiddleware.js:60 | the pending gate's test, `!order.startedAt`; its relation to the other gates is stated by GatesExclusive and GatesFollowStages |
| OrderMiddleware.IsShippable | DeliverUS-Backend/src/middlewares/OrderMiddleware.js:74 | the send gate's test: started and not sent; see GatesExclusive and GatesFollowStages |
| OrderMiddleware.IsDeliverable | DeliverUS-Backend/src/middlewares/OrderMiddleware.js:87 | the deliver gate's test: started, sent and not delivered; see GatesExclusive and GatesFollowStages |
| OrderMiddleware.CheckOrderOwnership | DeliverUS-Backend/src/middlewares/OrderMiddleware.js:31-47 | calls `next()` iff the requester owns the order's restaurant; 403 "Not enough privileges…" whenever both rows exist and the owner differs; 500 whenever the order or its restaurant is missing |
| OrderMiddleware.CheckOrderVisible | DeliverUS-Backend/src/middlewares/OrderMiddleware.js:49-55 | owner: the ownership check; customer: the customer check; any other user type: no answer at all (`Stalled`) |
| OrderMiddleware.CheckOrderIsPending | DeliverUS-Backend/src/middlewares/OrderMiddleware.js:57-69 | calls `next()` iff the order exists with `startedAt` unset; an existing started order gets 409 "The order has already been started" |
| OrderMiddleware.CheckOrderCanBeSent | DeliverUS-Backend/src/middlewares/OrderMiddleware.js:71-83 | calls `next()` iff `startedAt` is set and `sentAt` is unset; otherwise an existing order gets 409 "The order cannot be sent" |
| OrderMiddleware.CheckOrderCanBeDelivered | DeliverUS-Backend/src/middlewares/OrderMiddleware.js:84-96 | calls `next()` iff `startedAt` and `sentAt` are set and `deliveredAt` is unset; otherwise an existing order gets 409 "The order cannot be delivered" |
| OrderMiddleware.ScanStoredLines | DeliverUS-Backend/src/middlewares/OrderMiddleware.js:111-117 | the early-exit loop finishes without answering iff every product has a truthy `productId`, the order's restaurant and availability loosely equal to 1 |
| OrderMiddleware.CheckProducts | DeliverUS-Backend/src/middlewares/OrderMiddleware.js:99-125 | 404 for a missing order; 400 for an empty product list; `next()` iff the list is non-empty and every product passes; 409 "The order cannot be delivered" exactly when the order exists, the list is non-empty and some product fails |
| OrderMiddleware.GatesExclusive | DeliverUS-Backend/src/middlewares/OrderMiddleware.js:60-87 | no order passes two of the pending, sendable and deliverable gates |
| OrderMiddleware.GatesFollowStages | DeliverUS-Backend/src/middlewares/OrderMiddleware.js:60-87 | on a well-formed order, each gate holds exactly in the stage it advances from; a delivered order passes no gate |
| OrderValidation.CheckRestaurantExists | DeliverUS-Backend/src/controllers/validation/OrderValidation.js:10-21 | resolves iff the body's `restaurantId` names a restaurant, else rejects with "The restaurantId does not exist." |
| OrderValidation.ScanCreateLines | DeliverUS-Backend/src/controllers/validation/OrderValidation.js:30-37 | resolves iff every line passes both tests; otherwise the result is the failure of the first failing line, with the product test taking precedence over the quantity test |
| OrderValidation.CheckProducts | DeliverUS-Backend/src/controllers/validation/OrderValidation.js:23-41 | a missing or empty list gives "No products found in the order"; resolves iff the list is non-empty and every line has an id, the body's restaurant, availability `=== 1` and a quantity that is not `<= 0` |
| OrderValidation.ScanUpdateLines | DeliverUS-Backend/src/controllers/validation/OrderValidation.js:79-83 | the update loop accepts iff every line has an id, a quantity that is not `<= 0`, the given restaurant and availability `=== 1` |
| OrderValidation.CheckNewProducts | DeliverUS-Backend/src/controllers/validation/OrderValidation.js:71-88 | rejects a missing or empty list; resolves iff the stored order under `body.orderId` exists and every line passes against that order's restaurant; any rejection is one of the three messages |
| OrderValidation.CheckOrderIsPending | DeliverUS-Backend/src/controllers/validation/OrderValidation.js:56-69 | resolves iff the routed order exists with all three timestamps null; an existing order with any timestamp set is rejected with "The order has already been started" |
| OrderValidation.CreateErrors | DeliverUS-Backend/src/controllers/validation/OrderValidation.js:43-48 | the `create` list: "Invalid value" on `restaurantId` iff it is not an integer >= 1 (a missing one fails two validators); a products error iff `checkProducts` rejects; never an `orderId` error |
| OrderValidation.UpdateErrors | DeliverUS-Backend/src/controllers/validation/OrderValidation.js:90-96 | the `update` list: a `restaurantId` error iff one is present, `null` included; a products error iff `checkNewProducts` rejects; an `orderId` error iff `checkOrderIsPending` rejects |
| OrderValidation.NullQuantityRejected | DeliverUS-Backend/src/controllers/validation/OrderValidation.js:33-34 | a `null` quantity counts as `<= 0`: the create loop rejects it with "Products must have positive quantity" and the update loop with "The order cannot be delivered" |
| OrderValidation.QuantityTestByKind | DeliverUS-Backend/src/controllers/validation/OrderValidation.js:31-34 | a `null` quantity fails both line loops; a missing or `NaN` quantity passes the quantity test of both, so such a line is decided by the product, restaurant and availability tests alone |
| OrderValidation.MissingQuantityAccepted | DeliverUS-Backend/src/controllers/validation/OrderValidation.js:33 | as written, a body whose only line has an id, the body's restaurant and availability 1 but no quantity passes every `create` rule, and the line passes the update loop |
| OrderValidation.IntendedQuantityTest | DeliverUS-Backend/src/controllers/validation/OrderValidation.js:80 | the corrected line tests accept only a positive integer quantity, accept nothing the tests as written refuse, and agree with them on every integer quantity |
| OrderValidation.MissingRestaurantIdErrors | DeliverUS-Backend/src/controllers/validation/OrderValidation.js:44-45 | a body without `restaurantId` gets two "Invalid value" errors and "The restaurantId does not exist." before any products error |
| OrderValidation.PresentRestaurantIdFailsUpdate | DeliverUS-Backend/src/controllers/validation/OrderValidation.js:91 | `not().exists()` rejects any present `restaurantId`, `null` included |
| OrderValidation.CreateAcceptedIff | DeliverUS-Backend/src/controllers/validation/OrderValidation.js:43-48 | the `create` rules report nothing iff `restaurantId` is an integer >= 1 naming a restaurant and `products` is non-empty with every line acceptable; a `null` quantity or `restaurantId` is not accepted |
| OrderValidation.CrossRestaurantLineRejected | DeliverUS-Backend/src/controllers/validation/OrderValidation.js:30-35 | a line of another restaurant makes `checkProducts` and the `create` rules fail; the message is "The order cannot be delivered" when all earlier lines pass |
| OrderValidation.UpdateAcceptedIff | DeliverUS-Backend/src/controllers/validation/OrderValidation.js:90-96 | the `update` rules report nothing iff `restaurantId` is `undefined` (not `null`), the products are non-empty and valid against the stored order's restaurant, and the routed order exists and is strictly pending |
| OrderValidation.UpdateIgnoresBodyRestaurant | DeliverUS-Backend/src/controllers/validation/OrderValidation.js:77-78 | `checkNewProducts` gives the same answer whatever `restaurantId` the client sends |
| OrderValidation.UpdateRejectsStartedOrder | DeliverUS-Backend/src/controllers/validation/OrderValidation.js:61-62 | a routed order with any timestamp set always yields the "already been started" error |
| OrderValidation.StrictPendingRefinesGate | DeliverUS-Backend/src/controllers/validation/OrderValidation.js:61 | an order the update-time test accepts also passes the middleware pending gate; on well-formed orders the two agree |
| OrderValidation.UpdateLineRefinesStoredLine | DeliverUS-Backend/src/controllers/validation/OrderValidation.js:80 | a line the update loop accepts also passes the stored-product test of the middleware |
| OrderRoutes.RunStep | DeliverUS-Backend/src/routes/OrderRoutes.js:27-76 | one middleware's answer; exactly the guards refuse with `Denied` |
| OrderRoutes.RunChain | DeliverUS-Backend/src/routes/OrderRoutes.js:27-76 | a route's answer is `next()` or the answer of one of its middlewares |
| OrderRoutes.Chain | DeliverUS-Backend/src/routes/OrderRoutes.js:13-76 | every route starts with `isLoggedIn`; exactly the `:orderId` routes check the order exists; the ownership check always follows the owner role check |
| OrderRoutes.Confirm | DeliverUS-Backend/src/routes/OrderRoutes.js:27-34 | refused iff some middleware does not call `next()`; a commit keeps the restaurants and adds no order |
| OrderRoutes.Send | DeliverUS-Backend/src/routes/OrderRoutes.js:35-42 | refused iff some middleware does not call `next()`; a commit keeps the restaurants and adds no order |
| OrderRoutes.Deliver | DeliverUS-Backend/src/routes/OrderRoutes.js:43-50 | refused iff some middleware does not call `next()`; a commit keeps the restaurants and adds no order |
| OrderRoutes.Delete | DeliverUS-Backend/src/routes/OrderRoutes.js:70-76 | refused iff some middleware does not call `next()`; a commit keeps the restaurants and adds no order |
| OrderRoutes.RunChainNext | DeliverUS-Backend/src/routes/OrderRoutes.js:27-76 | a route reaches its controller iff every one of its middlewares calls `next()` |
| OrderRoutes.RunChainFirstRefusal | DeliverUS-Backend/src/routes/OrderRoutes.js:27-76 | a refused request gets the answer of the first middleware that does not call `next()`, and all earlier ones passed |
| OrderRoutes.SameStepsSameChain | DeliverUS-Backend/src/routes/OrderRoutes.js:13-25 | two requests that every middleware of a route treats alike get the same answer from the route |
| OrderRoutes.MissingOrderStopsAtGuard | DeliverUS-Backend/src/routes/OrderRoutes.js:29-31 | when only guards precede the existence check, a missing order is refused by a guard |
| OrderRoutes.MissingOrderNeverReachesOwnership | DeliverUS-Backend/src/routes/OrderRoutes.js:27-76 | on every `:orderId` route a missing order is refused by a guard, before any ownership, visibility or gate check |
| OrderRoutes.CreateIgnoresProducts | DeliverUS-Backend/src/routes/OrderRoutes.js:18-25 | POST /orders passes iff the requester is a customer and the restaurant exists; the products sent never change the answer |
| OrderRoutes.ShowAllowedIff | DeliverUS-Backend/src/routes/OrderRoutes.js:52-57 | GET /orders/:orderId passes iff the order exists and the requester is its customer or owns its restaurant; a user of another type gets no answer |
| OrderRoutes.ConfirmAllowedIff | DeliverUS-Backend/src/routes/OrderRoutes.js:27-34 | confirm commits iff the requester owns the order's restaurant and the order is pending; the commit only sets `startedAt` |
| OrderRoutes.SendAllowedIff | DeliverUS-Backend/src/routes/OrderRoutes.js:35-42 | send commits iff the requester owns the order's restaurant and the order is confirmed and unsent; the commit only sets `sentAt` |
| OrderRoutes.DeliverAllowedIff | DeliverUS-Backend/src/routes/OrderRoutes.js:43-50 | deliver commits iff the requester owns the order's restaurant and the order is sent and undelivered; the commit only sets `deliveredAt` |
| OrderRoutes.DeleteAllowedIff | DeliverUS-Backend/src/routes/OrderRoutes.js:70-76 | delete commits iff the requester is the customer who placed the order and it is pending; only that order leaves the store |
| OrderRoutes.TransitionsAdvanceOneStage | DeliverUS-Backend/src/routes/OrderRoutes.js:27-50 | each committed transition moves its order exactly one stage forward, and the store stays well-formed |
| OrderRoutes.ConfirmTwiceRejected | DeliverUS-Backend/src/routes/OrderRoutes.js:27-34 | confirming an order a second time is refused with 409 "The order has already been started" |
| OrderRoutes.NoStageIsSkipped | DeliverUS-Backend/src/routes/OrderRoutes.js:35-50 | a pending order cannot be sent, and an order not yet sent cannot be delivered |
| EntryOrder.MinKey | DeliverUS-Frontend-Customer/src/screens/orders/EditOrderScreen.js:27 | the first key `Object.entries` lists is the least key |
| EntryOrder.SortedKeys | DeliverUS-Frontend-Customer/src/screens/orders/EditOrderScreen.js:65 | the listed keys are keys of the object, strictly ascending, and as many as the object has |
| EntryOrder.SortedKeysCover | DeliverUS-Frontend-Customer/src/screens/orders/EditOrderScreen.js:65 | every key of the object is listed |
| EditOrderScreen.InitialQuantities | DeliverUS-Frontend-Customer/src/screens/orders/EditOrderScreen.js:44-48 | the map the fill loop builds; its meaning is stated by InitialQuantitiesMeaning |
| EditOrderScreen.InitialQuantitiesMeaning | DeliverUS-Frontend-Customer/src/screens/orders/EditOrderScreen.js:44-48 | the filled map has exactly the fetched product ids as keys; each id maps to the quantity of its last product; positive stored quantities give a positive map |
| EditOrderScreen.CollectQuantities | DeliverUS-Frontend-Customer/src/screens/orders/EditOrderScreen.js:44-48 | the fill loop builds the map `InitialQuantities` describes |
| EditOrderScreen.Decremented | DeliverUS-Frontend-Customer/src/screens/orders/EditOrderScreen.js:102-111 | minus lowers a quantity above 1 by one, otherwise removes the key; no other key changes; quantities stay >= 1 |
| EditOrderScreen.Incremented | DeliverUS-Frontend-Customer/src/screens/orders/EditOrderScreen.js:139-142 | plus sets the key to its value (or 0) plus 1; no other key changes; quantities stay >= 1 |
| EditOrderScreen.Typed | DeliverUS-Frontend-Customer/src/screens/orders/EditOrderScreen.js:124-135 | a missing or non-positive parse removes the key, any other parse is stored; no other key changes; quantities stay >= 1 |
| EditOrderScreen.PriceOf | DeliverUS-Frontend-Customer/src/screens/orders/EditOrderScreen.js:28 | the price of the first product with that id |
| EditOrderScreen.OrderTotal | DeliverUS-Frontend-Customer/src/screens/orders/EditOrderScreen.js:32-36 | the total adds the shipping costs (or 0) iff the subtotal is at most 10 euros |
| EditOrderScreen.SubTotal | DeliverUS-Frontend-Customer/src/screens/orders/EditOrderScreen.js:26-30 | quantity times price summed over the map's entries; its properties are stated by SubTotalSplit, SubTotalSet, SubTotalRemove and SubTotalNonNegative |
| EditOrderScreen.SubTotalSplit | DeliverUS-Frontend-Customer/src/screens/orders/EditOrderScreen.js:26-30 | the subtotal is any one entry's quantity times its price plus the subtotal of the rest, so the sum does not depend on the listing order |
| EditOrderScreen.SubTotalSet | DeliverUS-Frontend-Customer/src/screens/orders/EditOrderScreen.js:26-30 | setting one entry changes the subtotal by the change of that entry's amount |
| EditOrderScreen.SubTotalRemove | DeliverUS-Frontend-Customer/src/screens/orders/EditOrderScreen.js:26-30 | removing one entry lowers the subtotal by that entry's amount |
| EditOrderScreen.PlusAddsOnePrice | DeliverUS-Frontend-Customer/src/screens/orders/EditOrderScreen.js:139-142 | plus raises the subtotal by exactly one unit price |
| EditOrderScreen.MinusRemovesOnePrice | DeliverUS-Frontend-Customer/src/screens/orders/EditOrderScreen.js:102-111 | on a map of positive quantities, minus lowers the subtotal by exactly one unit price |
| EditOrderScreen.SubTotalNonNegative | DeliverUS-Frontend-Customer/src/screens/orders/EditOrderScreen.js:26-30 | with non-negative prices and positive quantities the subtotal is non-negative |
| EditOrderScreen.PayloadLines | DeliverUS-Frontend-Customer/src/screens/orders/EditOrderScreen.js:65-70 | one `{quantity, productId}` line per listed key, carrying that key's quantity |
| EditOrderScreen.SavePayload | DeliverUS-Frontend-Customer/src/screens/orders/EditOrderScreen.js:62-72 | the body keeps the current address and has exactly one line per map key, each with that key's quantity, in ascending key order |
| EditOrderScreen.ScreenState.constructor | DeliverUS-Frontend-Customer/src/screens/orders/EditOrderScreen.js:16-20 | an empty order, an empty map and an empty address |
| EditOrderScreen.ScreenState.FetchOrderDetail | DeliverUS-Frontend-Customer/src/screens/orders/EditOrderScreen.js:38-50 | the screen keeps the fetched order and its address, and fills the map from its products |
| EditOrderScreen.ScreenState.Minus | DeliverUS-Frontend-Customer/src/screens/orders/EditOrderScreen.js:101-111 | the map becomes `Decremented` of the old map; positivity is kept; the subtotal drops by one unit price |
| EditOrderScreen.ScreenState.Plus | DeliverUS-Frontend-Customer/src/screens/orders/EditOrderScreen.js:138-142 | the map becomes `Incremented` of the old map; the subtotal rises by one unit price |
| EditOrderScreen.ScreenState.ChangeText | DeliverUS-Frontend-Customer/src/screens/orders/EditOrderScreen.js:124-135 | the map becomes `Typed` of the old map; positivity is kept |
| RestaurantDetailScreen.Times | DeliverUS-Frontend-Customer/src/screens/restaurants/RestaurantDetailScreen.js:42 | `price * quantity` is `NaN` exactly when the quantity is, and 0 for quantity 0 |
| RestaurantDetailScreen.ControlsExclusive | DeliverUS-Frontend-Customer/src/screens/restaurants/RestaurantDetailScreen.js:61-87 | the add controls and the update/remove controls never show together; for a quantity of 0 or more exactly one group shows |
| RestaurantDetailScreen.ControlsMissingAsWritten | DeliverUS-Frontend-Customer/src/screens/restaurants/RestaurantDetailScreen.js:61-87 | a `NaN` quantity, and every negative quantity, shows neither group |
| RestaurantDetailScreen.ControlsFixedExactlyOne | DeliverUS-Frontend-Customer/src/screens/restaurants/RestaurantDetailScreen.js:61-87 | with the corrected rule every row shows exactly one group, and rows with a quantity of 0 or more are unchanged |
| RestaurantDetailScreen.ScreenState.constructor | DeliverUS-Frontend-Customer/src/screens/restaurants/RestaurantDetailScreen.js:14-16 | no products, an empty order array and an empty quantity array |
| RestaurantDetailScreen.ScreenState.Load | DeliverUS-Frontend-Customer/src/screens/restaurants/RestaurantDetailScreen.js:141-148 | new arrays with one `[0, 0]` pair and one `0` quantity per product, so all three have equal length; every row shows the add controls |
| RestaurantDetailScreen.ScreenState.UpdateOrder | DeliverUS-Frontend-Customer/src/screens/restaurants/RestaurantDetailScreen.js:36-44 | only entry `index` changes, to `[q, price * q]`, where `q` is the given quantity or else the typed one; lengths and subtotals stay consistent |
| RestaurantDetailScreen.ScreenState.UpdateQuantities | DeliverUS-Frontend-Customer/src/screens/restaurants/RestaurantDetailScreen.js:45-49 | only position `index` changes, to the parsed text; the order array is unchanged |
| RestaurantDetailScreen.ScreenState.Remove | DeliverUS-Frontend-Customer/src/screens/restaurants/RestaurantDetailScreen.js:112-113 | "Remove from order" sets the pair to `[0, 0]`, which brings the add controls back, and changes no other row |
| RestaurantDetailScreen.ScreenState.ClearThenAdd | DeliverUS-Frontend-Customer/src/screens/restaurants/RestaurantDetailScreen.js:68-71 | clearing the input and then pressing "Add to order" leaves the row's quantity `NaN`, with neither control group shown; no other row changes |
| RestaurantDetailScreen.ScreenState.AddTyped | DeliverUS-Frontend-Customer/src/screens/restaurants/RestaurantDetailScreen.js:70-71 | adding with a positive typed quantity stores it and shows the update controls |
| ConfirmOrderScreen.Selected | DeliverUS-Frontend-Customer/src/screens/restaurants/ConfirmOrderScreen.js:43-49 | the lines the fill loop pushes; their meaning is stated by SelectedAppend and SelectedMeaning |
| ConfirmOrderScreen.SelectedAppend | DeliverUS-Frontend-Customer/src/screens/restaurants/ConfirmOrderScreen.js:45-49 | the lines follow the restaurant's product order: building from two lists in turn is building from their concatenation |
| ConfirmOrderScreen.SelectedMeaning | DeliverUS-Frontend-Customer/src/screens/restaurants/ConfirmOrderScreen.js:45-49 | every line is an ordered product of the restaurant with its ordered quantity; every product with ordered quantity above 0 has a line |
| ConfirmOrderScreen.BuildOrderLines | DeliverUS-Frontend-Customer/src/screens/restaurants/ConfirmOrderScreen.js:43-49 | the `forEach` loop pushes exactly the lines `Selected` describes |
| ConfirmOrderScreen.Rendered | DeliverUS-Frontend-Customer/src/screens/restaurants/ConfirmOrderScreen.js:159-160 | only products of the restaurant with ordered quantity above 0 are rendered |
| ConfirmOrderScreen.RenderedMatchesLines | DeliverUS-Frontend-Customer/src/screens/restaurants/ConfirmOrderScreen.js:159-170 | the rendered products are exactly the products of the built lines, in the same order and with the same quantities |
| ConfirmOrderScreen.LineErrors | DeliverUS-Frontend-Customer/src/screens/restaurants/ConfirmOrderScreen.js:23-31 | each line is reported for a missing id, a missing quantity, or a quantity below 1, and for nothing else |
| ConfirmOrderScreen.SchemaErrors | DeliverUS-Frontend-Customer/src/screens/restaurants/ConfirmOrderScreen.js:22-34 | no error iff every line has an id and a quantity >= 1, the address is present and non-empty, and the restaurant is present; the number of lines is not constrained |
| ConfirmOrderScreen.BuiltLinesPassSchema | DeliverUS-Frontend-Customer/src/screens/restaurants/ConfirmOrderScreen.js:22-49 | the lines the screen builds never fail the line schema |
| ConfirmOrderScreen.ConfirmPress | DeliverUS-Frontend-Customer/src/screens/restaurants/ConfirmOrderScreen.js:83-95 | the values are sent to `create` iff validation reports nothing; otherwise every error is shown and nothing is sent |
| ConfirmOrderScreen.BuiltValuesAreSent | DeliverUS-Frontend-Customer/src/screens/restaurants/ConfirmOrderScreen.js:83-86 | with an address and a restaurant, the built values are always sent, even with no product ordered |
| ConfirmOrderScreen.CreateBody | DeliverUS-Frontend-Customer/src/screens/restaurants/ConfirmOrderScreen.js:67 | the create body carries the values' restaurant and one line per value line, without a per-line restaurant or availability; a missing value is left out of the body (`undefined`) |
| ConfirmOrderScreen.ScreenBodiesFailCreateRules | DeliverUS-Backend/src/controllers/validation/OrderValidation.js:29-32 | the backend's create-time product check would reject every body this screen sends |
| ConfirmOrderScreen.ScreenState.constructor | DeliverUS-Frontend-Customer/src/screens/restaurants/ConfirmOrderScreen.js:21 | no lines, plus the logged-in user's id and address and the route's restaurant |
| ConfirmOrderScreen.ScreenState.FetchRestaurantDetails | DeliverUS-Frontend-Customer/src/screens/restaurants/ConfirmOrderScreen.js:39-51 | the lines are rebuilt from scratch; the user, address and restaurant are kept; the new lines pass the line schema |

## Left out

- Store access (`findByPk`, `Order.build`, `include`) is a `Store` value passed in. A failing store and the generic `catch` paths answer 500; they are not modelled beyond a missing row.
- The bodies of `isLoggedIn`, `hasRole` and `checkEntityExists` are not part of this model.
  - `isLoggedIn` is taken to pass exactly when the request carries a user.
  - `checkEntityExists` is taken to pass exactly when the store holds an order under the route's `orderId`.
  - Each is a guard that calls `next()` or refuses with `Denied`.
  - No status code is given for a refusal.
  - `hasRole` is taken to compare the user's type with the role.
- The order controller is not part of this model. The effects of confirm, send, deliver and delete are the assumed ones stated above. The index, show and create actions are reached but their effect is not modelled.
- The edit (PUT) route is commented out, so no endpoint runs the `update` rules. The rules are modelled on their own. The order id they read comes from the body or from a route parameter.
- Ids are integers. The string forms are not modelled:
  - the string route parameter;
  - the stringified object keys of the edit screen, including `productId: v[0]` being a string in the save payload;
  - loose `!=` between a string and a number.
- Prices are integer cents. Floating-point arithmetic and `toFixed` formatting are not modelled.
- `parseInt` is an abstract `Option<int>`, with `None` for `NaN`.
- A `products` value that is present but `null` or not an array is not modelled; `products` is a list or absent.
- The `toInt()` sanitizer of the `create` rules is not modelled. It only rewrites a `restaurantId` that is already an integer or already fails `isInt`, so which bodies are accepted does not change. For a body whose `restaurantId` is missing, `null` or not a number, the messages may differ from the model's: the sanitizer may turn the value into `NaN` before `checkRestaurantExists` and `checkProducts` read it, so the third error OrderValidation.MissingRestaurantIdErrors states and the `checkProducts` message are not promised for such bodies.
- Number fields of a request body are taken to be integers, `null` or missing. Fractional numbers (a quantity of `0.5`), booleans (`false <= 0` holds), strings and objects are not modelled.
- ConfirmOrderScreen.SchemaErrors:
  - is a set, so the order of yup's messages is not modelled;
  - does not model yup's casting of strings to numbers or its type errors;
  - treats every quantity as an integer, so `.integer()` never fails.
- The quantity map the confirm-order screen receives maps ids to numbers. A `NaN` value is not modelled.
- React rendering, styles, navigation, flash messages, images and `useState`/`useEffect` scheduling are not modelled. Each state setter is an assignment to a field.
- The address editing of the edit screen is not modelled; only the address it sends is.
- Asynchrony is not modelled, including the read-then-write race between validation and commit.
- Not part of this model:
  - the orders list screen;
  - the order-detail screen;
  - the unfinished `orders/ConfirmOrderScreen.js`;
  - the two API wrapper files.
- OrderValidation.CrossRestaurantLineRejected states the message only when all earlier lines pass.
  - A line of another restaurant gets the generic "The order cannot be delivered".
  - When an earlier line fails only on its quantity, the code reports "Products must have positive quantity" first.

## Findings

| source | as written | input that shows it | evidently intended | confidence | as-written member | corrected member |
|---|---|---|---|---|---|---|
| DeliverUS-Frontend-Customer/src/screens/restaurants/RestaurantDetailScreen.js:61-87 | the add group shows for `order[index][0] === 0`, the update group for `> 0` | clear the quantity input (`parseInt("")` is `NaN`) or type `-1`, then press "Add to order": the pair becomes `[NaN, NaN]` or `[-1, -price]` and the row shows no controls, so the product can no longer be added, updated or removed (RestaurantDetailScreen.ScreenState.ClearThenAdd performs the first sequence) | every row shows exactly one of the two groups | medium, not executed | RestaurantDetailScreen.ControlsMissingAsWritten | RestaurantDetailScreen.ControlsFixedExactlyOne |
| DeliverUS-Backend/src/controllers/validation/OrderValidation.js:31-34 | a line is refused for its quantity only when `product.quantity <= 0`, here and in the update loop at line 80 | a product line with an id, the body's restaurant and availability 1 but no `quantity` field: `undefined <= 0` is false, so `create` accepts the body and the update loop accepts the line | every accepted line has a quantity greater than 0, as the comments at lines 3 and 51 of the same file say | high, not executed | OrderValidation.MissingQuantityAccepted | OrderValidation.IntendedQuantityTest |
