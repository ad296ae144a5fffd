/**
 * The order routes: each endpoint is an ordered list of middlewares run one
 * after the other; the first that does not call `next()` decides the answer.
 * The lifecycle endpoints then apply the controller's change to the store.
 */
module OrderRoutes {
  import opened Js
  import opened Orders
  import M = OrderMiddleware

  /** The requester (absent when not logged in), the `:orderId` parameter and the body. */
  datatype Request = Request(user: Option<User>, orderId: int, body: Body)

  /** One middleware of a route. */
  datatype Step =
    | IsLoggedIn
    | HasRole(role: UserType)
    | EntityExists
    | OrderOwnership
    | OrderCustomer
    | OrderVisible
    | OrderIsPending
    | OrderCanBeSent
    | OrderCanBeDelivered
    | RestaurantExists

  /** The registered order endpoints; no edit (PUT) endpoint is registered. */
  datatype Endpoint = IndexOrders | CreateOrder | ConfirmOrder | SendOrder | DeliverOrder | ShowOrder | DeleteOrder

  /** Runs one middleware. Reading `req.user.id` without a user throws, which Express answers with 500. */
  function RunStep(step: Step, req: Request, store: Store): (v: Verdict)
    ensures v.Denied? <==> IsGuard(step) && v != Next
  {
    match step
    case IsLoggedIn => if req.user.Some? then Next else Denied(NotLoggedIn)
    case HasRole(role) => if req.user.Some? && req.user.value.userType == role then Next else Denied(RoleMismatch)
    case EntityExists => if req.orderId in store.orders then Next else Denied(EntityMissing)
    case RestaurantExists => M.CheckRestaurantExists(req.body, store)
    case OrderIsPending => M.CheckOrderIsPending(req.orderId, store)
    case OrderCanBeSent => M.CheckOrderCanBeSent(req.orderId, store)
    case OrderCanBeDelivered => M.CheckOrderCanBeDelivered(req.orderId, store)
    case OrderOwnership =>
      if req.user.None? then Respond(500, MissingRow) else M.CheckOrderOwnership(req.user.value, req.orderId, store)
    case OrderCustomer =>
      if req.user.None? then Respond(500, MissingRow) else M.CheckOrderCustomer(req.user.value, req.orderId, store)
    case OrderVisible =>
      if req.user.None? then Respond(500, MissingRow) else M.CheckOrderVisible(req.user.value, req.orderId, store)
  }

  /** Runs the middlewares in order and stops at the first that does not call `next()`. */
  function RunChain(steps: seq<Step>, req: Request, store: Store): (v: Verdict)
    ensures v == Next || exists i | 0 <= i < |steps| :: RunStep(steps[i], req, store) == v
  {
    if steps == [] then Next
    else
      var v := RunStep(steps[0], req, store);
      if v != Next then v else RunChain(steps[1..], req, store)
  }

  /** The middlewares in front of each endpoint's controller action. */
  function Chain(e: Endpoint): (r: seq<Step>)
    ensures |r| >= 2 && r[0] == IsLoggedIn
    ensures HasOrderId(e) <==> EntityExists in r
    ensures OrderOwnership in r ==> r[1] == HasRole(Owner)
  {
    match e
    case IndexOrders => [IsLoggedIn, HasRole(Customer)]
    case CreateOrder => [IsLoggedIn, HasRole(Customer), RestaurantExists]
    case ConfirmOrder => [IsLoggedIn, HasRole(Owner), EntityExists, OrderOwnership, OrderIsPending]
    case SendOrder => [IsLoggedIn, HasRole(Owner), EntityExists, OrderOwnership, OrderCanBeSent]
    case DeliverOrder => [IsLoggedIn, HasRole(Owner), EntityExists, OrderOwnership, OrderCanBeDelivered]
    case ShowOrder => [IsLoggedIn, EntityExists, OrderVisible]
    case DeleteOrder => [IsLoggedIn, HasRole(Customer), EntityExists, OrderCustomer, OrderIsPending]
  }

  /** A chain reaches the controller exactly when every one of its middlewares calls `next()`. */
  lemma {:induction false} RunChainNext(steps: seq<Step>, req: Request, store: Store)
    ensures RunChain(steps, req, store) == Next <==>
      forall i | 0 <= i < |steps| :: RunStep(steps[i], req, store) == Next
  {
    if steps != [] {
      RunChainNext(steps[1..], req, store);
      if RunStep(steps[0], req, store) == Next {
        forall i | 0 <= i < |steps| && RunChain(steps, req, store) == Next
          ensures RunStep(steps[i], req, store) == Next
        {
          if i > 0 { assert steps[i] == steps[1..][i - 1]; }
        }
      }
    }
  }

  /** A refused request is refused by the first middleware that does not call `next()`. */
  lemma {:induction false} RunChainFirstRefusal(steps: seq<Step>, req: Request, store: Store)
    requires RunChain(steps, req, store) != Next
    ensures exists i | 0 <= i < |steps| ::
      && RunStep(steps[i], req, store) == RunChain(steps, req, store)
      && forall j | 0 <= j < i :: RunStep(steps[j], req, store) == Next
  {
    if RunStep(steps[0], req, store) != Next {
      assert RunStep(steps[0], req, store) == RunChain(steps, req, store);
    } else {
      RunChainFirstRefusal(steps[1..], req, store);
      var i :| 0 <= i < |steps[1..]|
        && RunStep(steps[1..][i], req, store) == RunChain(steps[1..], req, store)
        && forall j | 0 <= j < i :: RunStep(steps[1..][j], req, store) == Next;
      assert steps[i + 1] == steps[1..][i];
      forall j | 0 <= j < i + 1 ensures RunStep(steps[j], req, store) == Next {
        if j > 0 { assert steps[j] == steps[1..][j - 1]; }
      }
    }
  }

  /** Unrolls `RunChainNext` on a chain of five middlewares. */
  lemma PassesFive(steps: seq<Step>, req: Request, store: Store)
    requires |steps| == 5
    ensures RunChain(steps, req, store) == Next <==>
      && RunStep(steps[0], req, store) == Next && RunStep(steps[1], req, store) == Next
      && RunStep(steps[2], req, store) == Next && RunStep(steps[3], req, store) == Next
      && RunStep(steps[4], req, store) == Next
  {
    RunChainNext(steps, req, store);
  }

  /** Unrolls `RunChainNext` on a chain of three middlewares. */
  lemma PassesThree(steps: seq<Step>, req: Request, store: Store)
    requires |steps| == 3
    ensures RunChain(steps, req, store) == Next <==>
      RunStep(steps[0], req, store) == Next && RunStep(steps[1], req, store) == Next && RunStep(steps[2], req, store) == Next
  {
    RunChainNext(steps, req, store);
  }

  /** Two requests every middleware of a chain treats alike get the same answer from the chain. */
  lemma {:induction false} SameStepsSameChain(steps: seq<Step>, r1: Request, r2: Request, store: Store)
    requires forall i | 0 <= i < |steps| :: RunStep(steps[i], r1, store) == RunStep(steps[i], r2, store)
    ensures RunChain(steps, r1, store) == RunChain(steps, r2, store)
  {
    if steps != [] {
      assert RunStep(steps[0], r1, store) == RunStep(steps[0], r2, store);
      forall i | 0 <= i < |steps[1..]|
        ensures RunStep(steps[1..][i], r1, store) == RunStep(steps[1..][i], r2, store)
      {
        assert steps[1..][i] == steps[i + 1];
      }
      SameStepsSameChain(steps[1..], r1, r2, store);
    }
  }

  /** An authentication, role or existence middleware; the only kind that may precede the existence check. */
  predicate IsGuard(step: Step) {
    step.IsLoggedIn? || step.HasRole? || step.EntityExists?
  }

  /**
   * On a chain whose leading middlewares are guards ending in the existence
   * check, a missing order is refused by a guard and never reaches a check
   * that reads the order.
   */
  lemma {:induction false} MissingOrderStopsAtGuard(steps: seq<Step>, k: int, req: Request, store: Store)
    requires 0 <= k < |steps| && steps[k] == EntityExists
    requires forall j | 0 <= j < k :: IsGuard(steps[j])
    requires req.orderId !in store.orders
    ensures RunChain(steps, req, store).Denied?
  {
    if k > 0 {
      if RunStep(steps[0], req, store) == Next {
        assert steps[1..][k - 1] == EntityExists;
        forall j | 0 <= j < k - 1 ensures IsGuard(steps[1..][j]) {
          assert steps[1..][j] == steps[j + 1];
        }
        MissingOrderStopsAtGuard(steps[1..], k - 1, req, store);
      } else {
        assert IsGuard(steps[0]);
      }
    }
  }

  /** The endpoints with an `:orderId` parameter. */
  predicate HasOrderId(e: Endpoint) {
    e in {ConfirmOrder, SendOrder, DeliverOrder, ShowOrder, DeleteOrder}
  }

  /** On every `:orderId` route the existence check runs before ownership or visibility. */
  lemma MissingOrderNeverReachesOwnership(e: Endpoint, req: Request, store: Store)
    requires HasOrderId(e) && req.orderId !in store.orders
    ensures RunChain(Chain(e), req, store).Denied?
  {
    var steps := Chain(e);
    var k := if e == ShowOrder then 1 else 2;
    MissingOrderStopsAtGuard(steps, k, req, store);
  }

  /** Creation runs no product validation: the answer does not depend on the products sent. */
  lemma CreateIgnoresProducts(req: Request, store: Store, products: Option<seq<ProductLine>>)
    ensures RunChain(Chain(CreateOrder), req.(body := req.body.(products := products)), store)
         == RunChain(Chain(CreateOrder), req, store)
    ensures RunChain(Chain(CreateOrder), req, store) == Next <==>
      && req.user.Some? && req.user.value.userType == Customer
      && req.body.restaurantId.Int? && req.body.restaurantId.value in store.restaurants
  {
    var req' := req.(body := req.body.(products := products));
    PassesThree(Chain(CreateOrder), req, store);
    forall i | 0 <= i < 3 ensures RunStep(Chain(CreateOrder)[i], req', store) == RunStep(Chain(CreateOrder)[i], req, store) {
    }
    SameStepsSameChain(Chain(CreateOrder), req', req, store);
  }

  /** Showing an order: owners see their restaurant's orders, customers their own, other users get no answer. */
  lemma ShowAllowedIff(req: Request, store: Store)
    ensures RunChain(Chain(ShowOrder), req, store) == Next <==>
      && req.user.Some? && req.orderId in store.orders
      && var o := store.orders[req.orderId];
         || (req.user.value.userType == Customer && req.user.value.id == o.userId)
         || (&& req.user.value.userType == Owner && o.restaurantId in store.restaurants
             && req.user.value.id == store.restaurants[o.restaurantId].userId)
    ensures req.user.Some? && req.user.value.userType == OtherType && req.orderId in store.orders ==>
      RunChain(Chain(ShowOrder), req, store) == Stalled
  {
    var steps := Chain(ShowOrder);
    PassesThree(steps, req, store);
    if req.user.Some? && req.user.value.userType == OtherType && req.orderId in store.orders {
      assert RunStep(steps[2], req, store) == Stalled;
      RunChainFirstRefusal(steps, req, store);
    }
  }

  /** The result of a lifecycle endpoint: refused, or the store after the controller's change. */
  datatype Outcome = Rejected(verdict: Verdict) | Committed(store: Store)

  /** Replaces one order of the store. */
  function WithOrder(store: Store, id: int, o: Order): Store {
    store.(orders := store.orders[id := o])
  }

  /** Every middleware of an endpoint lets the request through. */
  predicate Passes(e: Endpoint, req: Request, store: Store) {
    RunChain(Chain(e), req, store) == Next
  }

  /** A request that reaches a lifecycle controller names an existing order. */
  lemma PassesFindsOrder(e: Endpoint, req: Request, store: Store)
    requires HasOrderId(e) && Passes(e, req, store)
    ensures req.orderId in store.orders
  {
    RunChainNext(Chain(e), req, store);
    assert RunStep(Chain(e)[if e == ShowOrder then 1 else 2], req, store) == Next;
  }

  /** PATCH /orders/:orderId/confirm: the chain, then `startedAt` is set to `now`. */
  function Confirm(req: Request, store: Store, now: int): (r: Outcome)
    ensures r.Rejected? <==> !Passes(ConfirmOrder, req, store)
    ensures r.Rejected? ==> r.verdict != Next
    ensures r.Committed? ==> r.store.restaurants == store.restaurants && r.store.orders.Keys <= store.orders.Keys
  {
    if !Passes(ConfirmOrder, req, store) then Rejected(RunChain(Chain(ConfirmOrder), req, store))
    else
      PassesFindsOrder(ConfirmOrder, req, store);
      Committed(WithOrder(store, req.orderId, store.orders[req.orderId].(startedAt := Some(now))))
  }

  /** PATCH /orders/:orderId/send: the chain, then `sentAt` is set to `now`. */
  function Send(req: Request, store: Store, now: int): (r: Outcome)
    ensures r.Rejected? <==> !Passes(SendOrder, req, store)
    ensures r.Rejected? ==> r.verdict != Next
    ensures r.Committed? ==> r.store.restaurants == store.restaurants && r.store.orders.Keys <= store.orders.Keys
  {
    if !Passes(SendOrder, req, store) then Rejected(RunChain(Chain(SendOrder), req, store))
    else
      PassesFindsOrder(SendOrder, req, store);
      Committed(WithOrder(store, req.orderId, store.orders[req.orderId].(sentAt := Some(now))))
  }

  /** PATCH /orders/:orderId/deliver: the chain, then `deliveredAt` is set to `now`. */
  function Deliver(req: Request, store: Store, now: int): (r: Outcome)
    ensures r.Rejected? <==> !Passes(DeliverOrder, req, store)
    ensures r.Rejected? ==> r.verdict != Next
    ensures r.Committed? ==> r.store.restaurants == store.restaurants && r.store.orders.Keys <= store.orders.Keys
  {
    if !Passes(DeliverOrder, req, store) then Rejected(RunChain(Chain(DeliverOrder), req, store))
    else
      PassesFindsOrder(DeliverOrder, req, store);
      Committed(WithOrder(store, req.orderId, store.orders[req.orderId].(deliveredAt := Some(now))))
  }

  /** DELETE /orders/:orderId: the chain, then the order is removed. */
  function Delete(req: Request, store: Store): (r: Outcome)
    ensures r.Rejected? <==> !Passes(DeleteOrder, req, store)
    ensures r.Rejected? ==> r.verdict != Next
    ensures r.Committed? ==> r.store.restaurants == store.restaurants && r.store.orders.Keys <= store.orders.Keys
  {
    if !Passes(DeleteOrder, req, store) then Rejected(RunChain(Chain(DeleteOrder), req, store))
    else Committed(store.(orders := store.orders - {req.orderId}))
  }

  /** The requester owns the restaurant of the routed order. */
  predicate OwnsRestaurantOf(req: Request, store: Store)
    requires req.orderId in store.orders
  {
    && req.user.Some? && req.user.value.userType == Owner
    && store.orders[req.orderId].restaurantId in store.restaurants
    && req.user.value.id == store.restaurants[store.orders[req.orderId].restaurantId].userId
  }

  /** Confirm succeeds exactly for the restaurant's owner on a pending order, and then only starts it. */
  lemma ConfirmAllowedIff(req: Request, store: Store, now: int)
    ensures Confirm(req, store, now).Committed? <==>
      req.orderId in store.orders && OwnsRestaurantOf(req, store) && M.IsPending(store.orders[req.orderId])
    ensures Confirm(req, store, now).Committed? ==>
      Confirm(req, store, now).store == WithOrder(store, req.orderId, store.orders[req.orderId].(startedAt := Some(now)))
  {
    PassesFive(Chain(ConfirmOrder), req, store);
  }

  /** Send succeeds exactly for the restaurant's owner on a confirmed, unsent order, and then only sends it. */
  lemma SendAllowedIff(req: Request, store: Store, now: int)
    ensures Send(req, store, now).Committed? <==>
      req.orderId in store.orders && OwnsRestaurantOf(req, store) && M.IsShippable(store.orders[req.orderId])
    ensures Send(req, store, now).Committed? ==>
      Send(req, store, now).store == WithOrder(store, req.orderId, store.orders[req.orderId].(sentAt := Some(now)))
  {
    PassesFive(Chain(SendOrder), req, store);
  }

  /** Deliver succeeds exactly for the restaurant's owner on a sent, undelivered order, and then only delivers it. */
  lemma DeliverAllowedIff(req: Request, store: Store, now: int)
    ensures Deliver(req, store, now).Committed? <==>
      req.orderId in store.orders && OwnsRestaurantOf(req, store) && M.IsDeliverable(store.orders[req.orderId])
    ensures Deliver(req, store, now).Committed? ==>
      Deliver(req, store, now).store == WithOrder(store, req.orderId, store.orders[req.orderId].(deliveredAt := Some(now)))
  {
    PassesFive(Chain(DeliverOrder), req, store);
  }

  /** Delete succeeds exactly for the customer who placed a pending order, and removes only that order. */
  lemma DeleteAllowedIff(req: Request, store: Store)
    ensures Delete(req, store).Committed? <==>
      && req.user.Some? && req.user.value.userType == Customer
      && req.orderId in store.orders
      && req.user.value.id == store.orders[req.orderId].userId
      && M.IsPending(store.orders[req.orderId])
    ensures Delete(req, store).Committed? ==>
      Delete(req, store).store == store.(orders := store.orders - {req.orderId})
    ensures Delete(req, store).Committed? ==>
      Delete(req, store).store.orders.Keys == store.orders.Keys - {req.orderId}
  {
    PassesFive(Chain(DeleteOrder), req, store);
  }

  /**
   * Each successful transition moves its order exactly one stage forward and
   * keeps every order of the store well-formed.
   */
  lemma TransitionsAdvanceOneStage(req: Request, store: Store, now: int)
    requires StoreWellFormed(store)
    ensures Confirm(req, store, now).Committed? ==>
      var s' := Confirm(req, store, now).store;
      && StoreWellFormed(s') && req.orderId in store.orders && req.orderId in s'.orders
      && StageOf(store.orders[req.orderId]) == Pending && StageOf(s'.orders[req.orderId]) == Confirmed
    ensures Send(req, store, now).Committed? ==>
      var s' := Send(req, store, now).store;
      && StoreWellFormed(s') && req.orderId in store.orders && req.orderId in s'.orders
      && StageOf(store.orders[req.orderId]) == Confirmed && StageOf(s'.orders[req.orderId]) == Sent
    ensures Deliver(req, store, now).Committed? ==>
      var s' := Deliver(req, store, now).store;
      && StoreWellFormed(s') && req.orderId in store.orders && req.orderId in s'.orders
      && StageOf(store.orders[req.orderId]) == Sent && StageOf(s'.orders[req.orderId]) == Delivered
    ensures Delete(req, store).Committed? ==>
      StoreWellFormed(Delete(req, store).store) && req.orderId in store.orders
      && StageOf(store.orders[req.orderId]) == Pending
  {
    ConfirmAllowedIff(req, store, now);
    SendAllowedIff(req, store, now);
    DeliverAllowedIff(req, store, now);
    DeleteAllowedIff(req, store);
  }

  /** Confirming twice is refused with 409, whoever confirmed first. */
  lemma ConfirmTwiceRejected(req: Request, store: Store, now: int, later: int)
    requires Confirm(req, store, now).Committed?
    ensures Confirm(req, Confirm(req, store, now).store, later)
         == Rejected(Respond(409, "The order has already been started"))
  {
    ConfirmAllowedIff(req, store, now);
    var s' := Confirm(req, store, now).store;
    var steps := Chain(ConfirmOrder);
    assert s'.orders[req.orderId].startedAt == Some(now);
    assert forall j | 0 <= j < 4 :: RunStep(steps[j], req, s') == Next;
    assert RunStep(steps[4], req, s') == Respond(409, "The order has already been started");
    PassesFive(steps, req, s');
    RunChainFirstRefusal(steps, req, s');
  }

  /** Sending before confirming, or delivering before sending, is refused. */
  lemma NoStageIsSkipped(req: Request, store: Store, now: int)
    requires req.orderId in store.orders && WellFormed(store.orders[req.orderId])
    ensures StageOf(store.orders[req.orderId]) == Pending ==> Send(req, store, now).Rejected?
    ensures StageOf(store.orders[req.orderId]) in {Pending, Confirmed} ==> Deliver(req, store, now).Rejected?
  {
    SendAllowedIff(req, store, now);
    DeliverAllowedIff(req, store, now);
  }
}
