/**
 * The restaurant's confirm-order screen: the order values built from the
 * restaurant's products and the quantity map the screen receives, the
 * client-side schema those values must satisfy, and the confirm button,
 * which sends the values to the create endpoint only when the schema holds.
 */
module ConfirmOrderScreen {
  import opened Js
  import Orders
  import OrderValidation

  /** One `{productId, quantity}` line; a missing field is `None`. */
  datatype LineInput = LineInput(productId: Option<int>, quantity: Option<int>)

  /** `orderValues`: the lines, the requester, the delivery address and the restaurant. */
  datatype OrderValues = OrderValues(
    products: seq<LineInput>,
    userId: int,
    address: Option<string>,
    restaurantId: Option<int>)

  /** `route.params.order[id] > 0`; a product without an entry is not ordered. */
  predicate Ordered(order: map<int, int>, id: int) {
    id in order && order[id] > 0
  }

  /** The lines the fill loop pushes: one per ordered product, in the restaurant's product order. */
  function Selected(ids: seq<int>, order: map<int, int>): seq<LineInput> {
    if ids == [] then []
    else
      var init := Selected(ids[..|ids| - 1], order);
      var id := ids[|ids| - 1];
      if Ordered(order, id) then init + [LineInput(Some(id), Some(order[id]))] else init
  }

  /** Selecting from two lists one after the other is selecting from their concatenation. */
  lemma {:induction false} SelectedAppend(a: seq<int>, b: seq<int>, order: map<int, int>)
    ensures Selected(a + b, order) == Selected(a, order) + Selected(b, order)
    decreases |b|
  {
    if b != [] {
      var b' := b[..|b| - 1];
      assert (a + b)[..|a + b| - 1] == a + b';
      assert (a + b)[|a + b| - 1] == b[|b| - 1];
      SelectedAppend(a, b', order);
    } else {
      assert a + b == a;
    }
  }

  /**
   * Every built line is an ordered product of the restaurant with its ordered
   * quantity, and every ordered product of the restaurant has a line.
   */
  lemma {:induction false} SelectedMeaning(ids: seq<int>, order: map<int, int>)
    ensures forall line | line in Selected(ids, order) ::
      && line.productId.Some? && line.productId.value in ids
      && Ordered(order, line.productId.value)
      && line.quantity == Some(order[line.productId.value])
    ensures forall id | id in ids && Ordered(order, id) :: LineInput(Some(id), Some(order[id])) in Selected(ids, order)
  {
    if ids != [] {
      var init := ids[..|ids| - 1];
      SelectedMeaning(init, order);
      assert ids == init + [ids[|ids| - 1]];
    }
  }

  /** The fill loop: `forEach` over the products, pushing a line for each ordered one. */
  method BuildOrderLines(ids: seq<int>, order: map<int, int>) returns (lines: seq<LineInput>)
    ensures lines == Selected(ids, order)
  {
    lines := [];
    var i := 0;
    while i < |ids|
      invariant 0 <= i <= |ids|
      invariant lines == Selected(ids[..i], order)
    {
      assert ids[..i + 1][..i] == ids[..i];
      if ids[i] in order && order[ids[i]] > 0 {
        lines := lines + [LineInput(Some(ids[i]), Some(order[ids[i]]))];
      }
      i := i + 1;
    }
    assert ids[..|ids|] == ids;
  }

  /** The products the list renders: those whose ordered quantity is above 0. */
  function Rendered(ids: seq<int>, order: map<int, int>): (r: seq<int>)
    ensures forall i | 0 <= i < |r| :: r[i] in ids && Ordered(order, r[i])
  {
    if ids == [] then []
    else
      var init := Rendered(ids[..|ids| - 1], order);
      var id := ids[|ids| - 1];
      if Ordered(order, id) then init + [id] else init
  }

  /** The rendered products are exactly the products of the built lines, in the same order. */
  lemma {:induction false} RenderedMatchesLines(ids: seq<int>, order: map<int, int>)
    ensures |Rendered(ids, order)| == |Selected(ids, order)|
    ensures forall i | 0 <= i < |Rendered(ids, order)| ::
      Selected(ids, order)[i] == LineInput(Some(Rendered(ids, order)[i]), Some(order[Rendered(ids, order)[i]]))
  {
    if ids != [] {
      RenderedMatchesLines(ids[..|ids| - 1], order);
    }
  }

  /** A message of the schema, with the index of the line it is about. */
  datatype SchemaError =
    | ProductIdRequired(line: nat)
    | QuantityRequired(line: nat)
    | InvalidQuantity(line: nat)
    | AddressRequired
    | RestaurantIdRequired

  /** The text yup reports for each error. */
  function Message(e: SchemaError): string {
    match e
    case ProductIdRequired(_) => "Product ID is required"
    case QuantityRequired(_) => "Product quantity is required"
    case InvalidQuantity(_) => "Invalid quantity"
    case AddressRequired => "Address is required"
    case RestaurantIdRequired => "Restaurant ID is required"
  }

  /** The errors of the line schema: a required id, and a required quantity of at least 1. */
  function LineErrors(lines: seq<LineInput>): (es: set<SchemaError>)
    ensures forall i: nat | i < |lines| :: ProductIdRequired(i) in es <==> lines[i].productId.None?
    ensures forall i: nat | i < |lines| :: QuantityRequired(i) in es <==> lines[i].quantity.None?
    ensures forall i: nat | i < |lines| ::
      InvalidQuantity(i) in es <==> lines[i].quantity.Some? && lines[i].quantity.value < 1
    ensures forall e | e in es :: (e.ProductIdRequired? || e.QuantityRequired? || e.InvalidQuantity?) && e.line < |lines|
  {
    (set i: nat | i < |lines| && lines[i].productId.None? :: ProductIdRequired(i))
    + (set i: nat | i < |lines| && lines[i].quantity.None? :: QuantityRequired(i))
    + (set i: nat | i < |lines| && lines[i].quantity.Some? && lines[i].quantity.value < 1 :: InvalidQuantity(i))
  }

  /**
   * Every error of `validationSchema` with `abortEarly: false`: the line
   * errors, a missing or empty address and a missing restaurant. The number
   * of lines is not constrained.
   */
  function SchemaErrors(v: OrderValues): (es: set<SchemaError>)
    ensures AddressRequired in es <==> v.address.None? || v.address.value == ""
    ensures RestaurantIdRequired in es <==> v.restaurantId.None?
    ensures es == {} <==>
      && (forall i | 0 <= i < |v.products| ::
            v.products[i].productId.Some? && v.products[i].quantity.Some? && v.products[i].quantity.value >= 1)
      && v.address.Some? && v.address.value != ""
      && v.restaurantId.Some?
  {
    var lineErrors := LineErrors(v.products);
    lineErrors
    + (if v.address.None? || v.address.value == "" then {AddressRequired} else {})
    + (if v.restaurantId.None? then {RestaurantIdRequired} else {})
  }

  /** The built lines never fail the line part of the schema. */
  lemma BuiltLinesPassSchema(ids: seq<int>, order: map<int, int>)
    ensures LineErrors(Selected(ids, order)) == {}
  {
    SelectedMeaning(ids, order);
    var lines := Selected(ids, order);
    forall i | 0 <= i < |lines|
      ensures lines[i].productId.Some? && lines[i].quantity.Some? && lines[i].quantity.value >= 1
    {
      assert lines[i] in lines;
    }
  }

  /** What pressing Confirm does: send the values to `create`, or show every error and send nothing. */
  datatype ConfirmOutcome = SendCreate(values: OrderValues) | ShowErrors(errors: set<SchemaError>)

  /** handleConfirmPress: validate with `abortEarly: false`, then create. */
  function ConfirmPress(v: OrderValues): (r: ConfirmOutcome)
    ensures r.SendCreate? <==> SchemaErrors(v) == {}
    ensures r.SendCreate? ==> r.values == v
    ensures r.ShowErrors? ==> r.errors == SchemaErrors(v) && r.errors != {}
  {
    var errors := SchemaErrors(v);
    if errors == {} then SendCreate(v) else ShowErrors(errors)
  }

  /**
   * With an address and a restaurant, the values the screen builds are always
   * sent, even when no product was ordered.
   */
  lemma BuiltValuesAreSent(ids: seq<int>, order: map<int, int>, userId: int, address: string, restaurantId: int)
    requires address != ""
    ensures ConfirmPress(OrderValues(Selected(ids, order), userId, Some(address), Some(restaurantId)))
         == SendCreate(OrderValues(Selected(ids, order), userId, Some(address), Some(restaurantId)))
  {
    BuiltLinesPassSchema(ids, order);
  }

  /** The body of the create request: the lines carry no restaurant and no availability, and a missing value is left out. */
  function CreateBody(v: OrderValues): (body: Orders.Body)
    ensures body.restaurantId == FromOption(v.restaurantId) && body.products.Some?
    ensures |body.products.value| == |v.products|
    ensures forall i | 0 <= i < |v.products| ::
      body.products.value[i] == Orders.ProductLine(
        FromOption(v.products[i].productId), FromOption(v.products[i].quantity), Undefined, Flag.Absent)
  {
    Orders.Body(FromOption(v.restaurantId), Some(LinesOf(v.products)), Undefined)
  }

  function LinesOf(lines: seq<LineInput>): (r: seq<Orders.ProductLine>)
    ensures |r| == |lines|
    ensures forall i | 0 <= i < |lines| ::
      r[i] == Orders.ProductLine(FromOption(lines[i].productId), FromOption(lines[i].quantity), Undefined, Flag.Absent)
  {
    if lines == [] then []
    else
      var line := Orders.ProductLine(FromOption(lines[0].productId), FromOption(lines[0].quantity), Undefined, Flag.Absent);
      [line] + LinesOf(lines[1..])
  }

  /**
   * The create route does not run the create rules; if it did, their product
   * check would turn down every body this screen sends.
   */
  lemma ScreenBodiesFailCreateRules(v: OrderValues)
    ensures OrderValidation.CheckProducts(CreateBody(v)) != OrderValidation.Pass
  {
    var body := CreateBody(v);
    if |v.products| > 0 {
      assert body.products.value[0] in body.products.value;
      assert !OrderValidation.CreateLineOk(body.products.value[0], body.restaurantId);
    }
  }

  /** The screen's state: the values the Confirm button validates and sends. */
  class ScreenState {
    var orderValues: OrderValues

    /** The initial values: no lines, the logged-in user's id and address, and the route's restaurant. */
    constructor (userId: int, address: Option<string>, restaurantId: Option<int>)
      ensures orderValues == OrderValues([], userId, address, restaurantId)
    {
      orderValues := OrderValues([], userId, address, restaurantId);
    }

    /** fetchRestaurantDetails: rebuild the lines from scratch, keeping the other values. */
    method FetchRestaurantDetails(ids: seq<int>, order: map<int, int>)
      modifies this
      ensures orderValues == old(orderValues).(products := Selected(ids, order))
      ensures LineErrors(orderValues.products) == {}
    {
      var lines := BuildOrderLines(ids, order);
      BuiltLinesPassSchema(ids, order);
      orderValues := orderValues.(products := lines);
    }
  }
}
