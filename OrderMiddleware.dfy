/**
 * The order middlewares of the backend: ownership and visibility checks,
 * the three lifecycle gates, the restaurant-exists check and the stored
 * product check. Each is a function from the requester, the route's
 * `orderId`, the request body and the store to a `Verdict`.
 */
module OrderMiddleware {
  import opened Js
  import opened Orders

  /** `!order.startedAt`: nothing has happened to the order yet. */
  predicate IsPending(o: Order) {
    o.startedAt.None?
  }

  /** `order.startedAt && !order.sentAt`. */
  predicate IsShippable(o: Order) {
    o.startedAt.Some? && o.sentAt.None?
  }

  /** `order.startedAt && order.sentAt && !order.deliveredAt`. */
  predicate IsDeliverable(o: Order) {
    o.startedAt.Some? && o.sentAt.Some? && o.deliveredAt.None?
  }

  /** checkOrderCustomer: the requester must be the customer who placed the order. */
  function CheckOrderCustomer(user: User, orderId: int, store: Store): (v: Verdict)
    ensures v == Next <==> orderId in store.orders && user.id == store.orders[orderId].userId
    ensures orderId in store.orders && v != Next ==> v == Respond(403, NotYours)
    ensures orderId !in store.orders ==> v == Respond(500, MissingRow)
  {
    if orderId !in store.orders then Respond(500, MissingRow)
    else if user.id == store.orders[orderId].userId then Next
    else Respond(403, NotYours)
  }

  /** checkRestaurantExists: the body's `restaurantId` must name a restaurant. */
  function CheckRestaurantExists(body: Body, store: Store): (v: Verdict)
    ensures v == Next <==> body.restaurantId.Int? && body.restaurantId.value in store.restaurants
    ensures v != Next ==> v == Respond(409, "Restaurant not found")
  {
    if body.restaurantId.Int? && body.restaurantId.value in store.restaurants then Next
    else Respond(409, "Restaurant not found")
  }

  /** checkOrderOwnership: the requester must own the order's restaurant. */
  function CheckOrderOwnership(user: User, orderId: int, store: Store): (v: Verdict)
    ensures v == Next <==>
      && orderId in store.orders
      && store.orders[orderId].restaurantId in store.restaurants
      && user.id == store.restaurants[store.orders[orderId].restaurantId].userId
    ensures orderId !in store.orders || store.orders[orderId].restaurantId !in store.restaurants ==>
      v == Respond(500, MissingRow)
    ensures
      && orderId in store.orders
      && store.orders[orderId].restaurantId in store.restaurants
      && user.id != store.restaurants[store.orders[orderId].restaurantId].userId
      ==> v == Respond(403, NotYours)
    ensures v != Next ==> v == Respond(403, NotYours) || v == Respond(500, MissingRow)
    ensures v == Respond(403, NotYours) ==>
      orderId in store.orders && store.orders[orderId].restaurantId in store.restaurants
  {
    if orderId !in store.orders then Respond(500, MissingRow)
    else
      var rid := store.orders[orderId].restaurantId;
      if rid !in store.restaurants then Respond(500, MissingRow)
      else if user.id == store.restaurants[rid].userId then Next
      else Respond(403, NotYours)
  }

  /** checkOrderVisible: owners by restaurant, customers by order; anyone else gets no answer. */
  function CheckOrderVisible(user: User, orderId: int, store: Store): (v: Verdict)
    ensures user.userType == Owner ==> v == CheckOrderOwnership(user, orderId, store)
    ensures user.userType == Customer ==> v == CheckOrderCustomer(user, orderId, store)
    ensures user.userType == OtherType ==> v == Stalled
  {
    match user.userType
    case Owner => CheckOrderOwnership(user, orderId, store)
    case Customer => CheckOrderCustomer(user, orderId, store)
    case OtherType => Stalled
  }

  /** checkOrderIsPending: 409 once the order has been started. */
  function CheckOrderIsPending(orderId: int, store: Store): (v: Verdict)
    ensures v == Next <==> orderId in store.orders && store.orders[orderId].startedAt.None?
    ensures orderId in store.orders && v != Next ==> v == Respond(409, "The order has already been started")
  {
    if orderId !in store.orders then Respond(500, MissingRow)
    else if IsPending(store.orders[orderId]) then Next
    else Respond(409, "The order has already been started")
  }

  /** checkOrderCanBeSent: started and not yet sent, else 409. */
  function CheckOrderCanBeSent(orderId: int, store: Store): (v: Verdict)
    ensures v == Next <==>
      orderId in store.orders && store.orders[orderId].startedAt.Some? && store.orders[orderId].sentAt.None?
    ensures orderId in store.orders && v != Next ==> v == Respond(409, "The order cannot be sent")
  {
    if orderId !in store.orders then Respond(500, MissingRow)
    else if IsShippable(store.orders[orderId]) then Next
    else Respond(409, "The order cannot be sent")
  }

  /** checkOrderCanBeDelivered: started and sent and not yet delivered, else 409. */
  function CheckOrderCanBeDelivered(orderId: int, store: Store): (v: Verdict)
    ensures v == Next <==>
      && orderId in store.orders
      && store.orders[orderId].startedAt.Some?
      && store.orders[orderId].sentAt.Some?
      && store.orders[orderId].deliveredAt.None?
    ensures orderId in store.orders && v != Next ==> v == Respond(409, "The order cannot be delivered")
  {
    if orderId !in store.orders then Respond(500, MissingRow)
    else if IsDeliverable(store.orders[orderId]) then Next
    else Respond(409, "The order cannot be delivered")
  }

  /** The test each stored product of an order must pass in checkProducts. */
  predicate StoredLineOk(line: ProductLine, restaurantId: int) {
    && IsTruthy(line.productId)
    && line.restaurantId == Int(restaurantId)
    && !LooselyNotOne(line.availability)
  }

  /** The early-exit scan of checkProducts: true when no product makes it return. */
  function ScanStoredLines(lines: seq<ProductLine>, restaurantId: int): (ok: bool)
    ensures ok <==> forall i | 0 <= i < |lines| :: StoredLineOk(lines[i], restaurantId)
  {
    if lines == [] then true
    else if !StoredLineOk(lines[0], restaurantId) then false
    else ScanStoredLines(lines[1..], restaurantId)
  }

  /** checkProducts: 404 without an order, 400 without products, 409 on a bad product. */
  function CheckProducts(orderId: int, store: Store): (v: Verdict)
    ensures orderId !in store.orders ==> v == Respond(404, "Order not found")
    ensures orderId in store.orders && store.orders[orderId].products == [] ==>
      v == Respond(400, "No products found in the order")
    ensures v == Next <==>
      && orderId in store.orders
      && store.orders[orderId].products != []
      && forall line | line in store.orders[orderId].products ::
           StoredLineOk(line, store.orders[orderId].restaurantId)
    ensures
      && orderId in store.orders
      && store.orders[orderId].products != []
      && (exists line | line in store.orders[orderId].products ::
            !StoredLineOk(line, store.orders[orderId].restaurantId))
      ==> v == Respond(409, "The order cannot be delivered")
    ensures v.Respond? && v.status == 409 ==>
      orderId in store.orders &&
      exists line | line in store.orders[orderId].products ::
        !StoredLineOk(line, store.orders[orderId].restaurantId)
  {
    if orderId !in store.orders then Respond(404, "Order not found")
    else
      var order := store.orders[orderId];
      if order.products == [] then Respond(400, "No products found in the order")
      else if !ScanStoredLines(order.products, order.restaurantId) then Respond(409, "The order cannot be delivered")
      else Next
  }

  /** At most one of the three gates holds for any order, well-formed or not. */
  lemma GatesExclusive(o: Order)
    ensures !(IsPending(o) && IsShippable(o))
    ensures !(IsPending(o) && IsDeliverable(o))
    ensures !(IsShippable(o) && IsDeliverable(o))
  {
  }

  /** On a well-formed order each gate holds exactly in the stage it advances from. */
  lemma GatesFollowStages(o: Order)
    requires WellFormed(o)
    ensures IsPending(o) <==> StageOf(o) == Pending
    ensures IsShippable(o) <==> StageOf(o) == Confirmed
    ensures IsDeliverable(o) <==> StageOf(o) == Sent
    ensures StageOf(o) == Delivered ==> !IsPending(o) && !IsShippable(o) && !IsDeliverable(o)
  {
  }
}
