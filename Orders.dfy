/**
 * The backend's order records as the middlewares and validators read them,
 * the store they are fetched from, and the outcome of one Express middleware.
 */
module Orders {
  import opened Js

  /** `req.user.userType`; any other string is `OtherType`. */
  datatype UserType = Owner | Customer | OtherType

  datatype User = User(id: int, userType: UserType)

  /**
   * A product line as the checks read it: from the request body (validation)
   * or from an order's `products` association (middleware).
   */
  datatype ProductLine = ProductLine(
    productId: Num,
    quantity: Num,
    restaurantId: Num,
    availability: Flag)

  /** An order row; the three lifecycle timestamps are nullable. */
  datatype Order = Order(
    id: int,
    userId: int,
    restaurantId: int,
    startedAt: Option<int>,
    sentAt: Option<int>,
    deliveredAt: Option<int>,
    products: seq<ProductLine>)

  datatype Restaurant = Restaurant(id: int, userId: int)

  /** What `findByPk` can see: orders and restaurants by primary key. */
  datatype Store = Store(orders: map<int, Order>, restaurants: map<int, Restaurant>)

  /** The parts of a request body the order code reads; `products` is `None` when absent. */
  datatype Body = Body(
    restaurantId: Num,
    products: Option<seq<ProductLine>>,
    orderId: Num)

  /** A middleware whose body is not part of this model refused the request. */
  datatype Guard = NotLoggedIn | RoleMismatch | EntityMissing

  /**
   * What one middleware does with a request: call `next()`, answer with a
   * status, be refused by a guard not modelled here, or do neither.
   */
  datatype Verdict = Next | Respond(status: int, message: string) | Denied(guard: Guard) | Stalled

  const NotYours := "Not enough privileges. This entity does not belong to you"
  /** The TypeError raised by reading a field of a missing row or user. */
  const MissingRow := "TypeError: cannot read properties of a missing value"

  /**
   * The order lifecycle. Timestamps are filled in order, so a well-formed
   * order is in exactly one of four stages.
   */
  datatype Stage = Pending | Confirmed | Sent | Delivered

  predicate WellFormed(o: Order) {
    && (o.sentAt.Some? ==> o.startedAt.Some?)
    && (o.deliveredAt.Some? ==> o.sentAt.Some?)
  }

  function StageOf(o: Order): (s: Stage)
    requires WellFormed(o)
    ensures s == Pending <==> o.startedAt.None?
    ensures s == Delivered <==> o.deliveredAt.Some?
  {
    if o.deliveredAt.Some? then Delivered
    else if o.sentAt.Some? then Sent
    else if o.startedAt.Some? then Confirmed
    else Pending
  }

  predicate StoreWellFormed(s: Store) {
    forall id | id in s.orders :: WellFormed(s.orders[id])
  }
}
