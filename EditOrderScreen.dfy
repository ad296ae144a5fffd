/**
 * The customer's order-editing screen: a map from product id to quantity,
 * filled from the fetched order and changed by the minus, plus and text
 * controls of each product; the subtotal and total shown; and the body
 * sent when the order is saved. Prices are integer cents.
 */
module EditOrderScreen {
  import opened Js
  import opened EntryOrder

  /** A product of the fetched order: id, price in cents, `OrderProducts.quantity`. */
  datatype OrderedProduct = OrderedProduct(id: int, price: int, quantity: int)

  /** The fields of the fetched order the screen uses. */
  datatype FetchedOrder = FetchedOrder(address: string, shippingCosts: Option<int>, products: seq<OrderedProduct>)

  /** One line of the update body: `{quantity, productId}`. */
  datatype PayloadLine = PayloadLine(quantity: int, productId: int)

  /** The body `saveOrder` sends to the update endpoint. */
  datatype EditBody = EditBody(products: seq<PayloadLine>, address: string)

  /** The subtotal up to which shipping is charged: 10 euros. */
  const FreeShippingAbove := 1000

  function Ids(ps: seq<OrderedProduct>): set<int> {
    set p | p in ps :: p.id
  }

  /** Every quantity of the map is at least 1. */
  predicate AllPositive(m: map<int, int>) {
    forall k | k in m :: m[k] >= 1
  }

  /** The map the fill loop builds: each product id to its quantity, a later product overriding an earlier one. */
  function InitialQuantities(ps: seq<OrderedProduct>): map<int, int> {
    if ps == [] then map[]
    else InitialQuantities(ps[..|ps| - 1])[ps[|ps| - 1].id := ps[|ps| - 1].quantity]
  }

  /**
   * The filled map has exactly the fetched ids as keys, each sent to the
   * quantity of the last product with that id, and it is positive when the
   * stored quantities are.
   */
  lemma {:induction false} InitialQuantitiesMeaning(ps: seq<OrderedProduct>)
    ensures InitialQuantities(ps).Keys == Ids(ps)
    ensures forall i | 0 <= i < |ps| && (forall j | i < j < |ps| :: ps[j].id != ps[i].id) ::
      InitialQuantities(ps)[ps[i].id] == ps[i].quantity
    ensures (forall p | p in ps :: p.quantity >= 1) ==> AllPositive(InitialQuantities(ps))
  {
    if ps != [] {
      var init := ps[..|ps| - 1];
      var last := ps[|ps| - 1];
      InitialQuantitiesMeaning(init);
      assert ps == init + [last];
      assert Ids(ps) == Ids(init) + {last.id} by {
        forall x ensures x in Ids(ps) <==> x in Ids(init) + {last.id} {
          if x in Ids(ps) {
            var p :| p in ps && p.id == x;
            assert p in init || p == last;
          }
        }
      }
      forall i | 0 <= i < |ps| && (forall j | i < j < |ps| :: ps[j].id != ps[i].id)
        ensures InitialQuantities(ps)[ps[i].id] == ps[i].quantity
      {
        if i < |ps| - 1 {
          assert ps[i] == init[i];
          assert forall j | i < j < |init| :: init[j].id != init[i].id by {
            forall j | i < j < |init| ensures init[j].id != init[i].id { assert init[j] == ps[j]; }
          }
        }
      }
    }
  }

  /** fetchOrderDetail's loop: one assignment `newOrder[product.id] = quantity` per fetched product. */
  method CollectQuantities(ps: seq<OrderedProduct>) returns (m: map<int, int>)
    ensures m == InitialQuantities(ps)
  {
    m := map[];
    var i := 0;
    while i < |ps|
      invariant 0 <= i <= |ps|
      invariant m == InitialQuantities(ps[..i])
    {
      assert ps[..i + 1][..i] == ps[..i];
      m := m[ps[i].id := ps[i].quantity];
      i := i + 1;
    }
    assert ps[..|ps|] == ps;
  }

  /** The minus control: one less above 1, otherwise the product leaves the map. */
  function Decremented(m: map<int, int>, id: int): (r: map<int, int>)
    ensures forall k | k != id :: (k in r <==> k in m) && (k in r ==> r[k] == m[k])
    ensures id in r <==> id in m && m[id] > 1
    ensures id in r ==> r[id] == m[id] - 1
    ensures AllPositive(m) ==> AllPositive(r)
  {
    if id in m && m[id] > 1 then m[id := m[id] - 1] else m - {id}
  }

  /** The plus control: one more, starting from 0 for a product not in the map. */
  function Incremented(m: map<int, int>, id: int): (r: map<int, int>)
    ensures r.Keys == m.Keys + {id}
    ensures forall k | k in m && k != id :: r[k] == m[k]
    ensures r[id] == (if id in m then m[id] else 0) + 1
    ensures AllPositive(m) ==> AllPositive(r)
  {
    m[id := (if id in m then m[id] else 0) + 1]
  }

  /**
   * The text input: a missing, zero or negative parse removes the product,
   * any other value is stored.
   */
  function Typed(m: map<int, int>, id: int, parsed: Option<int>): (r: map<int, int>)
    ensures forall k | k != id :: (k in r <==> k in m) && (k in r ==> r[k] == m[k])
    ensures id in r <==> parsed.Some? && parsed.value > 0
    ensures id in r ==> r[id] == parsed.value
    ensures AllPositive(m) ==> AllPositive(r)
  {
    if !Truthy(parsed) || parsed.value <= 0 then m - {id} else m[id := parsed.value]
  }

  /** `order.products.find(p => p.id === id).price`: the first product with that id. */
  function PriceOf(ps: seq<OrderedProduct>, id: int): (price: int)
    requires id in Ids(ps)
    ensures exists i | 0 <= i < |ps| ::
      ps[i].id == id && price == ps[i].price && forall j | 0 <= j < i :: ps[j].id != id
  {
    if ps[0].id == id then ps[0].price
    else
      assert id in Ids(ps[1..]) by {
        var p :| p in ps && p.id == id;
        assert p != ps[0];
        assert p in ps[1..];
      }
      var price := PriceOf(ps[1..], id);
      ghost var i :| 0 <= i < |ps[1..]| && ps[1..][i].id == id && price == ps[1..][i].price
        && forall j | 0 <= j < i :: ps[1..][j].id != id;
      assert ps[i + 1] == ps[1..][i];
      assert forall j | 0 <= j < i + 1 :: ps[j].id != id by {
        forall j | 0 <= j < i + 1 ensures ps[j].id != id {
          if j > 0 { assert ps[j] == ps[1..][j - 1]; }
        }
      }
      price
  }

  /** getOrderSubTotal: the sum of quantity times price over the map's entries. */
  function SubTotal(m: map<int, int>, ps: seq<OrderedProduct>): int
    requires m.Keys <= Ids(ps)
    decreases m.Keys
  {
    if m.Keys == {} then 0
    else
      var k := MinKey(m.Keys);
      m[k] * PriceOf(ps, k) + SubTotal(m - {k}, ps)
  }

  /** getOrderTotal: the subtotal, plus `shippingCosts || 0` when the subtotal is at most 10 euros. */
  function OrderTotal(m: map<int, int>, order: FetchedOrder): (total: int)
    requires m.Keys <= Ids(order.products)
    ensures SubTotal(m, order.products) <= FreeShippingAbove ==>
      total == SubTotal(m, order.products) + order.shippingCosts.GetOr(0)
    ensures SubTotal(m, order.products) > FreeShippingAbove ==> total == SubTotal(m, order.products)
  {
    var subtotal := SubTotal(m, order.products);
    if subtotal <= FreeShippingAbove then subtotal + order.shippingCosts.GetOr(0) else subtotal
  }

  /** The subtotal splits into any one entry plus the rest, whichever entry is taken out. */
  lemma {:induction false} SubTotalSplit(m: map<int, int>, ps: seq<OrderedProduct>, k: int)
    requires m.Keys <= Ids(ps) && k in m
    ensures SubTotal(m, ps) == m[k] * PriceOf(ps, k) + SubTotal(m - {k}, ps)
    decreases m.Keys
  {
    var j := MinKey(m.Keys);
    if j != k {
      var mj := m - {j};
      var mk := m - {k};
      var rest := mj - {k};
      assert rest == mk - {j};
      var aj := m[j] * PriceOf(ps, j);
      var ak := m[k] * PriceOf(ps, k);
      assert SubTotal(m, ps) == aj + SubTotal(mj, ps);
      assert mj[k] == m[k] && mk[j] == m[j];
      SubTotalSplit(mj, ps, k);
      assert SubTotal(mj, ps) == ak + SubTotal(rest, ps);
      SubTotalSplit(mk, ps, j);
      assert SubTotal(mk, ps) == aj + SubTotal(rest, ps);
    }
  }

  /** Setting one entry changes the subtotal by that entry's difference times its price. */
  lemma SubTotalSet(m: map<int, int>, ps: seq<OrderedProduct>, k: int, v: int)
    requires m.Keys <= Ids(ps) && k in Ids(ps)
    ensures SubTotal(m[k := v], ps)
         == SubTotal(m, ps) - (if k in m then m[k] else 0) * PriceOf(ps, k) + v * PriceOf(ps, k)
  {
    var m' := m[k := v];
    SubTotalSplit(m', ps, k);
    if k in m {
      SubTotalSplit(m, ps, k);
      assert m' - {k} == m - {k};
    } else {
      assert m' - {k} == m;
    }
  }

  /** Removing one entry lowers the subtotal by that entry's amount. */
  lemma SubTotalRemove(m: map<int, int>, ps: seq<OrderedProduct>, k: int)
    requires m.Keys <= Ids(ps)
    ensures SubTotal(m - {k}, ps) == SubTotal(m, ps) - (if k in m then m[k] * PriceOf(ps, k) else 0)
  {
    if k in m {
      SubTotalSplit(m, ps, k);
    } else {
      assert m - {k} == m;
    }
  }

  /** One more unit adds one price. */
  lemma MulStep(q: int, price: int)
    ensures (q + 1) * price == q * price + price
  {
  }

  /** The plus control raises the subtotal by exactly one unit price. */
  lemma PlusAddsOnePrice(m: map<int, int>, ps: seq<OrderedProduct>, id: int)
    requires m.Keys <= Ids(ps) && id in Ids(ps)
    ensures Incremented(m, id).Keys <= Ids(ps)
    ensures SubTotal(Incremented(m, id), ps) == SubTotal(m, ps) + PriceOf(ps, id)
  {
    var q := if id in m then m[id] else 0;
    SubTotalSet(m, ps, id, q + 1);
    MulStep(q, PriceOf(ps, id));
  }

  /** On a map of positive quantities, the minus control lowers the subtotal by one unit price. */
  lemma MinusRemovesOnePrice(m: map<int, int>, ps: seq<OrderedProduct>, id: int)
    requires m.Keys <= Ids(ps) && AllPositive(m) && id in m
    ensures Decremented(m, id).Keys <= Ids(ps)
    ensures SubTotal(Decremented(m, id), ps) == SubTotal(m, ps) - PriceOf(ps, id)
  {
    var q := m[id];
    var price := PriceOf(ps, id);
    if q > 1 {
      assert Decremented(m, id) == m[id := q - 1];
      SubTotalSet(m, ps, id, q - 1);
      MulStep(q - 1, price);
    } else {
      assert q == 1;
      assert Decremented(m, id) == m - {id};
      SubTotalRemove(m, ps, id);
      assert q * price == price;
    }
  }

  /** With non-negative prices, a map of positive quantities has a non-negative subtotal. */
  lemma {:induction false} SubTotalNonNegative(m: map<int, int>, ps: seq<OrderedProduct>)
    requires m.Keys <= Ids(ps) && AllPositive(m)
    requires forall p | p in ps :: p.price >= 0
    ensures SubTotal(m, ps) >= 0
    decreases m.Keys
  {
    if m.Keys != {} {
      var k := MinKey(m.Keys);
      SubTotalNonNegative(m - {k}, ps);
      var price := PriceOf(ps, k);
      assert price >= 0 by {
        var i :| 0 <= i < |ps| && ps[i].id == k && price == ps[i].price;
        assert ps[i] in ps;
      }
      assert m[k] * price >= 0;
    }
  }

  /** The `products` of the save body: one line per map entry, in `Object.entries` order. */
  function PayloadLines(m: map<int, int>, keys: seq<int>): (lines: seq<PayloadLine>)
    requires forall i | 0 <= i < |keys| :: keys[i] in m
    ensures |lines| == |keys|
    ensures forall i | 0 <= i < |keys| :: lines[i] == PayloadLine(m[keys[i]], keys[i])
  {
    if keys == [] then [] else [PayloadLine(m[keys[0]], keys[0])] + PayloadLines(m, keys[1..])
  }

  /** Every key listed yields its line. */
  lemma PayloadCovers(m: map<int, int>, keys: seq<int>, k: int)
    requires forall i | 0 <= i < |keys| :: keys[i] in m
    requires k in keys
    ensures exists i | 0 <= i < |keys| :: PayloadLines(m, keys)[i] == PayloadLine(m[k], k)
  {
    var i :| 0 <= i < |keys| && keys[i] == k;
    assert PayloadLines(m, keys)[i] == PayloadLine(m[k], k);
  }

  /** saveOrder's body: the current address and one `{quantity, productId}` line per map key. */
  function SavePayload(m: map<int, int>, address: string): (body: EditBody)
    ensures body.address == address
    ensures |body.products| == |m|
    ensures forall k | k in m :: exists i | 0 <= i < |body.products| :: body.products[i] == PayloadLine(m[k], k)
    ensures forall i | 0 <= i < |body.products| ::
      body.products[i].productId in m && body.products[i].quantity == m[body.products[i].productId]
    ensures forall i, j | 0 <= i < j < |body.products| :: body.products[i].productId < body.products[j].productId
  {
    var keys := SortedKeys(m.Keys);
    var lines := PayloadLines(m, keys);
    assert |m| == |m.Keys|;
    forall k | k in m ensures exists i | 0 <= i < |lines| :: lines[i] == PayloadLine(m[k], k) {
      SortedKeysCover(m.Keys, k);
      PayloadCovers(m, keys, k);
    }
    EditBody(lines, address)
  }

  /**
   * The screen's state: the fetched order, the edited quantities and the
   * address being edited. Every key of the quantity map is a product of the
   * fetched order, since the controls exist only for those products.
   */
  class ScreenState {
    var order: FetchedOrder
    var modifiedOrder: map<int, int>
    var newAddress: string

    ghost predicate Valid()
      reads this
    {
      modifiedOrder.Keys <= Ids(order.products)
    }

    /** The state before anything is fetched. */
    constructor ()
      ensures Valid()
      ensures order == FetchedOrder("", None, []) && modifiedOrder == map[] && newAddress == ""
    {
      order := FetchedOrder("", None, []);
      modifiedOrder := map[];
      newAddress := "";
    }

    /** fetchOrderDetail: keep the order and its address, and fill the quantity map. */
    method FetchOrderDetail(fetched: FetchedOrder)
      modifies this
      ensures Valid()
      ensures order == fetched && newAddress == fetched.address
      ensures modifiedOrder == InitialQuantities(fetched.products)
      ensures (forall p | p in fetched.products :: p.quantity >= 1) ==> AllPositive(modifiedOrder)
    {
      var m := CollectQuantities(fetched.products);
      InitialQuantitiesMeaning(fetched.products);
      order, modifiedOrder, newAddress := fetched, m, fetched.address;
    }

    /** The minus control of product `id`. */
    method Minus(id: int)
      requires Valid()
      modifies this
      ensures Valid()
      ensures modifiedOrder == Decremented(old(modifiedOrder), id)
      ensures order == old(order) && newAddress == old(newAddress)
      ensures AllPositive(old(modifiedOrder)) ==> AllPositive(modifiedOrder)
      ensures AllPositive(old(modifiedOrder)) && id in old(modifiedOrder) ==>
        SubTotal(modifiedOrder, order.products) == SubTotal(old(modifiedOrder), order.products) - PriceOf(order.products, id)
    {
      if AllPositive(modifiedOrder) && id in modifiedOrder {
        MinusRemovesOnePrice(modifiedOrder, order.products, id);
      }
      if id in modifiedOrder && modifiedOrder[id] > 1 {
        modifiedOrder := modifiedOrder[id := modifiedOrder[id] - 1];
      } else {
        var copy := modifiedOrder;
        modifiedOrder := copy - {id};
      }
    }

    /** The plus control of product `id`, a product of the fetched order. */
    method Plus(id: int)
      requires Valid() && id in Ids(order.products)
      modifies this
      ensures Valid()
      ensures modifiedOrder == Incremented(old(modifiedOrder), id)
      ensures order == old(order) && newAddress == old(newAddress)
      ensures SubTotal(modifiedOrder, order.products) == SubTotal(old(modifiedOrder), order.products) + PriceOf(order.products, id)
    {
      PlusAddsOnePrice(modifiedOrder, order.products, id);
      modifiedOrder := modifiedOrder[id := (if id in modifiedOrder then modifiedOrder[id] else 0) + 1];
    }

    /** The quantity text input of product `id`; `parsed` is what `parseInt` made of the text. */
    method ChangeText(id: int, parsed: Option<int>)
      requires Valid() && id in Ids(order.products)
      modifies this
      ensures Valid()
      ensures modifiedOrder == Typed(old(modifiedOrder), id, parsed)
      ensures order == old(order) && newAddress == old(newAddress)
      ensures AllPositive(old(modifiedOrder)) ==> AllPositive(modifiedOrder)
    {
      var copy := modifiedOrder;
      if !Truthy(parsed) || parsed.value <= 0 {
        copy := copy - {id};
      } else {
        copy := copy[id := parsed.value];
      }
      modifiedOrder := copy;
    }
  }
}
