/**
 * The restaurant screen's cart: two arrays parallel to the restaurant's
 * products, one `[quantity, subtotal]` pair per product and one typed
 * quantity per product, updated in place by index; and the rule that picks
 * which controls a product row shows. Prices are integer cents; `None`
 * stands for `NaN`, which `parseInt` yields for text that is not a number.
 */
module RestaurantDetailScreen {
  import opened Js

  /** `[quantity, subtotal]`; either may be `NaN`. */
  datatype Pair = Pair(quantity: Option<int>, subtotal: Option<int>)

  /** `price * quantity`, where a `NaN` quantity gives `NaN`. */
  function Times(price: int, quantity: Option<int>): (r: Option<int>)
    ensures r.Some? <==> quantity.Some?
    ensures quantity.Some? && quantity.value == 0 ==> r == Some(0)
  {
    match quantity
    case None => None
    case Some(q) => Some(price * q)
  }

  /** A pair whose subtotal is its quantity times the product's price. */
  predicate Priced(p: Pair, price: int) {
    p.subtotal == Times(price, p.quantity)
  }

  /** The "Add to order" controls: `order[index][0] === 0`. */
  predicate AddControlsShown(p: Pair) {
    p.quantity == Some(0)
  }

  /** The "Update quantity" and "Remove from order" controls: `order[index][0] > 0`. */
  predicate UpdateControlsShown(p: Pair) {
    p.quantity.Some? && p.quantity.value > 0
  }

  /** The two control groups are never shown together. */
  lemma ControlsExclusive(p: Pair)
    ensures !(AddControlsShown(p) && UpdateControlsShown(p))
    ensures p.quantity.Some? && p.quantity.value >= 0 ==> (AddControlsShown(p) <==> !UpdateControlsShown(p))
  {
  }

  /**
   * As written, a row whose quantity is `NaN` (the input cleared before
   * "Add to order") or negative shows neither group, so the product can no
   * longer be added, updated or removed.
   */
  lemma ControlsMissingAsWritten(price: int)
    ensures var p := Pair(None, Times(price, None)); !AddControlsShown(p) && !UpdateControlsShown(p)
    ensures forall n: int | n < 0 ::
      var p := Pair(Some(n), Times(price, Some(n))); !AddControlsShown(p) && !UpdateControlsShown(p)
  {
  }

  /** The add group shown whenever the update group is not. */
  predicate AddControlsShownFixed(p: Pair) {
    !UpdateControlsShown(p)
  }

  /** With the fixed rule every row shows exactly one group, and rows at 0 or above are unchanged. */
  lemma ControlsFixedExactlyOne(p: Pair)
    ensures AddControlsShownFixed(p) != UpdateControlsShown(p)
    ensures p.quantity.Some? && p.quantity.value >= 0 ==> (AddControlsShownFixed(p) <==> AddControlsShown(p))
  {
  }

  /**
   * The screen's state: the prices of the restaurant's products, in list
   * order, and the two arrays indexed like them.
   */
  class ScreenState {
    var prices: seq<int>
    var order: array<Pair>
    var quantities: array<Option<int>>

    /** The three sequences have equal length. */
    ghost predicate Valid()
      reads this
    {
      order.Length == quantities.Length == |prices|
    }

    /** Every pair's subtotal is its quantity times its product's price. */
    ghost predicate AllPriced()
      reads this, order
      requires Valid()
    {
      forall i | 0 <= i < order.Length :: Priced(order[i], prices[i])
    }

    /** The state before the restaurant is fetched: no products. */
    constructor ()
      ensures Valid() && AllPriced()
      ensures prices == [] && order.Length == 0 && quantities.Length == 0
    {
      prices := [];
      order := new Pair[0];
      quantities := new Option<int>[0];
    }

    /** fetchRestaurantDetail: one `[0, 0]` pair and one `0` quantity per product. */
    method Load(fetchedPrices: seq<int>)
      modifies this
      ensures Valid() && AllPriced()
      ensures prices == fetchedPrices
      ensures fresh(order) && fresh(quantities)
      ensures forall i | 0 <= i < order.Length :: order[i] == Pair(Some(0), Some(0)) && AddControlsShown(order[i])
      ensures forall i | 0 <= i < quantities.Length :: quantities[i] == Some(0)
    {
      prices := fetchedPrices;
      order := new Pair[|fetchedPrices|](_ => Pair(Some(0), Some(0)));
      quantities := new Option<int>[|fetchedPrices|](_ => Some(0));
    }

    /**
     * updateOrder: entry `index` becomes `[q, price * q]`, where `q` is the
     * given quantity or, when none is given, the typed one. Nothing else changes.
     */
    method UpdateOrder(index: int, given: Option<int>)
      requires Valid() && 0 <= index < order.Length
      modifies order
      ensures Valid()
      ensures var q := if given.Some? then given else old(quantities[index]);
        order[..] == old(order[..])[index := Pair(q, Times(prices[index], q))]
      ensures old(AllPriced()) ==> AllPriced()
      ensures unchanged(quantities)
    {
      var q := if given.Some? then given else quantities[index];
      order[index] := Pair(q, Times(prices[index], q));
    }

    /** updateQuantities: store what `parseInt` made of the text typed for product `index`. */
    method UpdateQuantities(index: int, parsed: Option<int>)
      requires Valid() && 0 <= index < quantities.Length
      modifies quantities
      ensures Valid()
      ensures quantities[..] == old(quantities[..])[index := parsed]
      ensures unchanged(order)
    {
      quantities[index] := parsed;
    }

    /** "Remove from order": `updateOrder` with quantity 0 brings back the add controls. */
    method Remove(index: int)
      requires Valid() && 0 <= index < order.Length
      modifies order
      ensures Valid()
      ensures order[index] == Pair(Some(0), Some(0)) && AddControlsShown(order[index])
      ensures forall j | 0 <= j < order.Length && j != index :: order[j] == old(order[j])
      ensures old(AllPriced()) ==> AllPriced()
    {
      UpdateOrder(index, Some(0));
    }

    /** "Add to order" or "Update quantity" with a positive typed quantity shows the update controls. */
    method AddTyped(index: int)
      requires Valid() && 0 <= index < order.Length
      requires quantities[index].Some? && quantities[index].value > 0
      modifies order
      ensures Valid()
      ensures UpdateControlsShown(order[index]) && order[index].quantity == quantities[index]
      ensures forall j | 0 <= j < order.Length && j != index :: order[j] == old(order[j])
      ensures old(AllPriced()) ==> AllPriced()
    {
      UpdateOrder(index, None);
    }

    /**
     * As written: clearing the quantity input (`parseInt('')` is `NaN`) and
     * then pressing "Add to order" leaves the row with neither control group.
     */
    method ClearThenAdd(index: int)
      requires Valid() && 0 <= index < order.Length
      modifies order, quantities
      ensures Valid()
      ensures quantities[index] == None && order[index].quantity == None
      ensures !AddControlsShown(order[index]) && !UpdateControlsShown(order[index])
      ensures forall j | 0 <= j < order.Length && j != index :: order[j] == old(order[j])
      ensures forall j | 0 <= j < quantities.Length && j != index :: quantities[j] == old(quantities[j])
    {
      UpdateQuantities(index, None);
      UpdateOrder(index, None);
    }
  }
}
