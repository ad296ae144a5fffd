/**
 * The express-validator rules for creating and updating an order: the custom
 * validators (restaurant exists, product lines, pending state) and the two
 * rule lists `create` and `update`, whose result is the list of errors the
 * failing rules report.
 */
module OrderValidation {
  import opened Js
  import opened Orders
  import OrderMiddleware

  /** A custom validator resolves (`Pass`) or rejects with a message. */
  datatype Check = Pass | Fail(message: string)

  const NoProducts := "No products found in the order"
  const CannotDeliver := "The order cannot be delivered"
  const NotPositive := "Products must have positive quantity"
  const AlreadyStarted := "The order has already been started"
  /** express-validator's message for a failing built-in validator. */
  const InvalidValue := "Invalid value"

  /** checkRestaurantExists: `req.body.restaurantId` must name a restaurant. */
  function CheckRestaurantExists(body: Body, store: Store): (c: Check)
    ensures c == Pass <==> body.restaurantId.Int? && body.restaurantId.value in store.restaurants
    ensures c != Pass ==> c == Fail("The restaurantId does not exist.")
  {
    if body.restaurantId.Int? && body.restaurantId.value in store.restaurants then Pass
    else Fail("The restaurantId does not exist.")
  }

  /**
   * The first test of the create-time loop: an id, the body's restaurant
   * (compared with `!==`, so two `undefined` ids are equal) and availability `=== 1`.
   */
  predicate LineAcceptable(line: ProductLine, restaurantId: Num) {
    && IsTruthy(line.productId)
    && StrictlyEqual(line.restaurantId, restaurantId)
    && !StrictlyNotOne(line.availability)
  }

  /** A line that gets through both tests of the create-time loop. */
  predicate CreateLineOk(line: ProductLine, restaurantId: Num) {
    LineAcceptable(line, restaurantId) && !AtMostZero(line.quantity)
  }

  /** The rejection the create-time loop gives for one failing line. */
  function CreateLineFailure(line: ProductLine, restaurantId: Num): Check {
    if !LineAcceptable(line, restaurantId) then Fail(CannotDeliver) else Fail(NotPositive)
  }

  /** The create-time loop: reject at the first failing line, product test before quantity test. */
  function ScanCreateLines(lines: seq<ProductLine>, restaurantId: Num): (c: Check)
    ensures c == Pass <==> forall i | 0 <= i < |lines| :: CreateLineOk(lines[i], restaurantId)
    ensures c != Pass ==>
      exists i | 0 <= i < |lines| ::
        && (forall j | 0 <= j < i :: CreateLineOk(lines[j], restaurantId))
        && !CreateLineOk(lines[i], restaurantId)
        && c == CreateLineFailure(lines[i], restaurantId)
  {
    if lines == [] then Pass
    else if !LineAcceptable(lines[0], restaurantId) then Fail(CannotDeliver)
    else if AtMostZero(lines[0].quantity) then Fail(NotPositive)
    else
      var c := ScanCreateLines(lines[1..], restaurantId);
      if c != Pass then
        ghost var i :| 0 <= i < |lines[1..]|
          && (forall j | 0 <= j < i :: CreateLineOk(lines[1..][j], restaurantId))
          && !CreateLineOk(lines[1..][i], restaurantId)
          && c == CreateLineFailure(lines[1..][i], restaurantId);
        assert lines[i + 1] == lines[1..][i];
        assert forall j | 0 <= j < i + 1 :: CreateLineOk(lines[j], restaurantId) by {
          forall j | 0 <= j < i + 1 ensures CreateLineOk(lines[j], restaurantId) {
            if j > 0 { assert lines[j] == lines[1..][j - 1]; }
          }
        }
        c
      else
        assert forall i | 0 <= i < |lines| :: CreateLineOk(lines[i], restaurantId) by {
          forall i | 0 <= i < |lines| ensures CreateLineOk(lines[i], restaurantId) {
            if i > 0 { assert lines[i] == lines[1..][i - 1]; }
          }
        }
        c
  }

  /** checkProducts (create): a non-empty list every line of which passes. */
  function CheckProducts(body: Body): (c: Check)
    ensures body.products.None? || body.products.value == [] ==> c == Fail(NoProducts)
    ensures c == Pass <==>
      && body.products.Some? && body.products.value != []
      && forall line | line in body.products.value :: CreateLineOk(line, body.restaurantId)
  {
    if body.products.None? || body.products.value == [] then Fail(NoProducts)
    else ScanCreateLines(body.products.value, body.restaurantId)
  }

  /** The update-time test of one line, against the stored order's restaurant. */
  predicate UpdateLineOk(line: ProductLine, restaurantId: int) {
    && IsTruthy(line.productId)
    && !AtMostZero(line.quantity)
    && StrictlyEqual(line.restaurantId, Int(restaurantId))
    && !StrictlyNotOne(line.availability)
  }

  /** The update-time loop: one combined test per line, one message. */
  function ScanUpdateLines(lines: seq<ProductLine>, restaurantId: int): (ok: bool)
    ensures ok <==> forall i | 0 <= i < |lines| :: UpdateLineOk(lines[i], restaurantId)
  {
    if lines == [] then true
    else if !UpdateLineOk(lines[0], restaurantId) then false
    else ScanUpdateLines(lines[1..], restaurantId)
  }

  /**
   * checkNewProducts: the restaurant comes from the order stored under
   * `req.body.orderId`; a missing order makes the lookup throw.
   */
  function CheckNewProducts(body: Body, store: Store): (c: Check)
    ensures body.products.None? || body.products.value == [] ==> c == Fail(NoProducts)
    ensures c == Pass <==>
      && body.products.Some? && body.products.value != []
      && body.orderId.Int? && body.orderId.value in store.orders
      && forall line | line in body.products.value ::
           UpdateLineOk(line, store.orders[body.orderId.value].restaurantId)
    ensures c != Pass ==> c in {Fail(NoProducts), Fail(MissingRow), Fail(CannotDeliver)}
  {
    if body.products.None? || body.products.value == [] then Fail(NoProducts)
    else if !body.orderId.Int? || body.orderId.value !in store.orders then Fail(MissingRow)
    else if !ScanUpdateLines(body.products.value, store.orders[body.orderId.value].restaurantId) then Fail(CannotDeliver)
    else Pass
  }

  /** The update-time pending test: none of the three timestamps is set. */
  predicate StrictlyPending(o: Order) {
    o.startedAt.None? && o.sentAt.None? && o.deliveredAt.None?
  }

  /** checkOrderIsPending (update): the order under `req.params.orderId` is strictly pending. */
  function CheckOrderIsPending(paramsOrderId: Option<int>, store: Store): (c: Check)
    ensures c == Pass <==>
      paramsOrderId.Some? && paramsOrderId.value in store.orders && StrictlyPending(store.orders[paramsOrderId.value])
    ensures paramsOrderId.Some? && paramsOrderId.value in store.orders && c != Pass ==> c == Fail(AlreadyStarted)
  {
    if paramsOrderId.None? || paramsOrderId.value !in store.orders then Fail(MissingRow)
    else if !StrictlyPending(store.orders[paramsOrderId.value]) then Fail(AlreadyStarted)
    else Pass
  }

  datatype Field = RestaurantIdField | ProductsField | OrderIdField

  datatype RuleError = RuleError(field: Field, message: string)

  /** The error a custom validator contributes to the list. */
  function ErrorsOf(field: Field, c: Check): (es: seq<RuleError>)
    ensures es == [] <==> c == Pass
  {
    if c == Pass then [] else [RuleError(field, c.message)]
  }

  /** The error a built-in validator contributes to the list. */
  function Rule(field: Field, holds: bool): (es: seq<RuleError>)
    ensures es == [] <==> holds
  {
    if holds then [] else [RuleError(field, InvalidValue)]
  }

  /** express-validator's `isInt({ min: 1 })`. */
  predicate IsIntAtLeastOne(x: Num) {
    x.Int? && x.value >= 1
  }

  /**
   * The `create` rule list: every validator of every chain runs, and each
   * failing one adds an error: `exists()` and `isInt({ min: 1 })` on
   * restaurantId, checkRestaurantExists, `exists()` and `isArray({ min: 1 })`
   * on products, checkProducts.
   */
  function CreateErrors(body: Body, store: Store): (es: seq<RuleError>)
    ensures RuleError(RestaurantIdField, InvalidValue) in es <==> !IsIntAtLeastOne(body.restaurantId)
    ensures (exists e | e in es :: e.field == ProductsField) <==> CheckProducts(body) != Pass
    ensures forall e | e in es :: e.field != OrderIdField
  {
    Rule(RestaurantIdField, Exists(body.restaurantId))
    + Rule(RestaurantIdField, IsIntAtLeastOne(body.restaurantId))
    + ErrorsOf(RestaurantIdField, CheckRestaurantExists(body, store))
    + Rule(ProductsField, body.products.Some?)
    + Rule(ProductsField, body.products.Some? && |body.products.value| >= 1)
    + ErrorsOf(ProductsField, CheckProducts(body))
  }

  /**
   * The `update` rule list: `not().exists()` on restaurantId, `exists()` and
   * `isArray({ min: 1 })` on products, checkNewProducts, `exists()` on orderId
   * (found in the body or in the route parameters), checkOrderIsPending.
   */
  function UpdateErrors(body: Body, paramsOrderId: Option<int>, store: Store): (es: seq<RuleError>)
    ensures (exists e | e in es :: e.field == RestaurantIdField) <==> Exists(body.restaurantId)
    ensures (exists e | e in es :: e.field == ProductsField) <==> CheckNewProducts(body, store) != Pass
    ensures (exists e | e in es :: e.field == OrderIdField) <==> CheckOrderIsPending(paramsOrderId, store) != Pass
  {
    Rule(RestaurantIdField, !Exists(body.restaurantId))
    + Rule(ProductsField, body.products.Some?)
    + Rule(ProductsField, body.products.Some? && |body.products.value| >= 1)
    + ErrorsOf(ProductsField, CheckNewProducts(body, store))
    + Rule(OrderIdField, Exists(body.orderId) || paramsOrderId.Some?)
    + ErrorsOf(OrderIdField, CheckOrderIsPending(paramsOrderId, store))
  }

  /** Creation is accepted exactly when every rule of `create` holds. */
  lemma CreateAcceptedIff(body: Body, store: Store)
    ensures CreateErrors(body, store) == [] <==>
      && body.restaurantId.Int? && body.restaurantId.value >= 1
      && body.restaurantId.value in store.restaurants
      && body.products.Some? && body.products.value != []
      && forall line | line in body.products.value :: CreateLineOk(line, body.restaurantId)
  {
  }

  /**
   * A line of another restaurant makes creation fail, whatever else the body
   * holds; the message is the product one unless an earlier line already
   * failed on its quantity.
   */
  lemma CrossRestaurantLineRejected(body: Body, store: Store, i: int)
    requires body.products.Some? && 0 <= i < |body.products.value|
    requires !StrictlyEqual(body.products.value[i].restaurantId, body.restaurantId)
    ensures CheckProducts(body) != Pass
    ensures CreateErrors(body, store) != []
    ensures (forall j | 0 <= j < i :: CreateLineOk(body.products.value[j], body.restaurantId)) ==>
      CheckProducts(body) == Fail(CannotDeliver)
  {
    var lines := body.products.value;
    var c := CheckProducts(body);
    assert !CreateLineOk(lines[i], body.restaurantId);
    assert c != Pass;
    var k :| 0 <= k < |lines|
      && (forall j | 0 <= j < k :: CreateLineOk(lines[j], body.restaurantId))
      && !CreateLineOk(lines[k], body.restaurantId)
      && c == CreateLineFailure(lines[k], body.restaurantId);
    assert k <= i;
    if forall j | 0 <= j < i :: CreateLineOk(lines[j], body.restaurantId) {
      assert k == i;
    }
    assert ErrorsOf(ProductsField, c) != [];
  }

  /**
   * A `null` quantity is at most 0 in JavaScript: the create loop reports it as
   * a quantity failure, and the update loop turns the line down.
   */
  lemma NullQuantityRejected(body: Body, store: Store, i: int)
    requires body.products.Some? && 0 <= i < |body.products.value|
    requires body.products.value[i].quantity == Null
    requires forall j | 0 <= j < i :: CreateLineOk(body.products.value[j], body.restaurantId)
    requires LineAcceptable(body.products.value[i], body.restaurantId)
    ensures CheckProducts(body) == Fail(NotPositive)
    ensures body.orderId.Int? && body.orderId.value in store.orders ==>
      CheckNewProducts(body, store) == Fail(CannotDeliver)
  {
    var lines := body.products.value;
    var c := CheckProducts(body);
    assert !CreateLineOk(lines[i], body.restaurantId);
    var k :| 0 <= k < |lines|
      && (forall j | 0 <= j < k :: CreateLineOk(lines[j], body.restaurantId))
      && !CreateLineOk(lines[k], body.restaurantId)
      && c == CreateLineFailure(lines[k], body.restaurantId);
    assert k == i;
    assert lines[i] in lines;
  }

  /**
   * The quantity test by kind of value: `null` fails both loops, while a
   * missing or `NaN` quantity is not `<= 0` and so passes the quantity test
   * of both, leaving the line to the other tests.
   */
  lemma QuantityTestByKind(line: ProductLine, restaurantId: Num, storedRestaurantId: int)
    ensures line.quantity.Null? ==> !CreateLineOk(line, restaurantId) && !UpdateLineOk(line, storedRestaurantId)
    ensures line.quantity.Undefined? || line.quantity.NaN? ==>
      && (CreateLineOk(line, restaurantId) <==> LineAcceptable(line, restaurantId))
      && (UpdateLineOk(line, storedRestaurantId) <==>
            && IsTruthy(line.productId)
            && StrictlyEqual(line.restaurantId, Int(storedRestaurantId))
            && !StrictlyNotOne(line.availability))
  {
  }

  /**
   * As written, a line without a quantity is accepted: `undefined <= 0` is
   * false. A body whose only line has an id, the body's restaurant and
   * availability 1 but no quantity passes every `create` rule, and the same
   * line passes the update loop.
   */
  lemma MissingQuantityAccepted(store: Store, restaurantId: int, productId: int)
    requires restaurantId >= 1 && restaurantId in store.restaurants && productId != 0
    ensures var line := ProductLine(Int(productId), Undefined, Int(restaurantId), Flag.Num(1));
      && CreateErrors(Body(Int(restaurantId), Some([line]), Undefined), store) == []
      && UpdateLineOk(line, restaurantId)
  {
    var line := ProductLine(Int(productId), Undefined, Int(restaurantId), Flag.Num(1));
    var body := Body(Int(restaurantId), Some([line]), Undefined);
    CreateAcceptedIff(body, store);
  }

  /** The quantity test the rules call for: an integer greater than 0. */
  predicate PositiveQuantity(x: Num) {
    x.Int? && x.value > 0
  }

  /** The create-time line test with the intended quantity test. */
  predicate CreateLineOkIntended(line: ProductLine, restaurantId: Num) {
    LineAcceptable(line, restaurantId) && PositiveQuantity(line.quantity)
  }

  /** The update-time line test with the intended quantity test. */
  predicate UpdateLineOkIntended(line: ProductLine, restaurantId: int) {
    UpdateLineOk(line, restaurantId) && PositiveQuantity(line.quantity)
  }

  /**
   * The corrected tests accept only lines with a positive integer quantity,
   * accept nothing the tests as written refuse, and agree with them on every
   * line whose quantity is an integer.
   */
  lemma IntendedQuantityTest(line: ProductLine, restaurantId: Num, storedRestaurantId: int)
    ensures CreateLineOkIntended(line, restaurantId) ==>
      CreateLineOk(line, restaurantId) && line.quantity.Int? && line.quantity.value > 0
    ensures UpdateLineOkIntended(line, storedRestaurantId) ==>
      UpdateLineOk(line, storedRestaurantId) && line.quantity.Int? && line.quantity.value > 0
    ensures line.quantity.Int? ==>
      && (CreateLineOkIntended(line, restaurantId) <==> CreateLineOk(line, restaurantId))
      && (UpdateLineOkIntended(line, storedRestaurantId) <==> UpdateLineOk(line, storedRestaurantId))
    ensures line.quantity.Undefined? ==>
      !CreateLineOkIntended(line, restaurantId) && !UpdateLineOkIntended(line, storedRestaurantId)
  {
  }

  /**
   * A missing restaurantId fails `exists()`, `isInt` and checkRestaurantExists
   * on its own: three errors before any products error.
   */
  lemma MissingRestaurantIdErrors(body: Body, store: Store)
    requires body.restaurantId.Undefined?
    ensures CreateErrors(body, store)[..3] ==
      [RuleError(RestaurantIdField, InvalidValue), RuleError(RestaurantIdField, InvalidValue),
       RuleError(RestaurantIdField, "The restaurantId does not exist.")]
  {
  }

  /** `not().exists()` fails on a `null` restaurantId as on any value that is present. */
  lemma PresentRestaurantIdFailsUpdate(body: Body, paramsOrderId: Option<int>, store: Store)
    requires !body.restaurantId.Undefined?
    ensures UpdateErrors(body, paramsOrderId, store)[0] == RuleError(RestaurantIdField, InvalidValue)
  {
  }

  /** The update rules accept exactly a request that meets every one of them. */
  lemma UpdateAcceptedIff(body: Body, paramsOrderId: Option<int>, store: Store)
    ensures UpdateErrors(body, paramsOrderId, store) == [] <==>
      && body.restaurantId.Undefined?
      && body.products.Some? && body.products.value != []
      && body.orderId.Int? && body.orderId.value in store.orders
      && (forall line | line in body.products.value ::
            UpdateLineOk(line, store.orders[body.orderId.value].restaurantId))
      && paramsOrderId.Some? && paramsOrderId.value in store.orders
      && StrictlyPending(store.orders[paramsOrderId.value])
  {
  }

  /** checkNewProducts never reads a client-supplied restaurantId. */
  lemma UpdateIgnoresBodyRestaurant(body: Body, store: Store, rid: Num)
    ensures CheckNewProducts(body.(restaurantId := rid), store) == CheckNewProducts(body, store)
  {
  }

  /** A started order is refused by the update rules even when everything else is valid. */
  lemma UpdateRejectsStartedOrder(body: Body, paramsOrderId: int, store: Store)
    requires paramsOrderId in store.orders && !StrictlyPending(store.orders[paramsOrderId])
    ensures RuleError(OrderIdField, AlreadyStarted) in UpdateErrors(body, Some(paramsOrderId), store)
  {
    var es := UpdateErrors(body, Some(paramsOrderId), store);
    assert es[|es| - 1] == RuleError(OrderIdField, AlreadyStarted);
  }

  /**
   * The update-time pending test is the stricter one: whatever it accepts the
   * middleware gate accepts, and on well-formed orders the two agree.
   */
  lemma StrictPendingRefinesGate(o: Order)
    ensures StrictlyPending(o) ==> OrderMiddleware.IsPending(o)
    ensures WellFormed(o) ==> (StrictlyPending(o) <==> OrderMiddleware.IsPending(o))
  {
  }

  /** Whatever the update loop accepts, the stored-product middleware accepts too. */
  lemma UpdateLineRefinesStoredLine(line: ProductLine, restaurantId: int)
    ensures UpdateLineOk(line, restaurantId) ==> OrderMiddleware.StoredLineOk(line, restaurantId)
  {
  }
}
