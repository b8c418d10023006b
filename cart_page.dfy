/**
 * The cart page's rules over the store: the quantity guard behind the minus
 * and plus buttons, and the checkout sequence with its `isSubmitting` flag.
 */
module CartPageFlow {
  import opened CartModel
  import Pricing
  import CartStore

  /** One `{ id, quantity }` entry of an order. */
  datatype OrderItem = OrderItem(id: string, quantity: int)

  /** The body posted to the orders endpoint. */
  datatype OrderPayload = OrderPayload(
    items: seq<OrderItem>,
    appliedOffers: seq<string>,
    subtotal: real,
    discount: real,
    total: real)

  /** `cart.map(item => ({ id: item.id, quantity: item.quantity }))`. */
  function OrderItems(cart: seq<Line>): (r: seq<OrderItem>)
    ensures |r| == |cart|
    ensures forall i :: 0 <= i < |cart| ==> r[i] == OrderItem(cart[i].id, cart[i].quantity)
  {
    if |cart| == 0 then [] else [OrderItem(cart[0].id, cart[0].quantity)] + OrderItems(cart[1..])
  }

  /** `appliedOffers.map(offer => offer.id)`. */
  function OfferIds(offers: seq<Offer>): (r: seq<string>)
    ensures |r| == |offers|
    ensures forall i :: 0 <= i < |offers| ==> r[i] == offers[i].id
  {
    if |offers| == 0 then [] else [offers[0].id] + OfferIds(offers[1..])
  }

  /**
   * The order body built from the cart and the applied offers: one entry per
   * line, in cart order, carrying distinct ids when the lines do, and totals
   * that agree with each other.
   */
  function BuildPayload(cart: seq<Line>, offers: seq<Offer>): (p: OrderPayload)
    ensures |p.items| == |cart| && |p.appliedOffers| == |offers|
    ensures UniqueIds(cart) ==> forall i, j :: 0 <= i < j < |p.items| ==> p.items[i].id != p.items[j].id
    ensures p.total == p.subtotal - p.discount
  {
    OrderPayload(
      OrderItems(cart),
      OfferIds(offers),
      Pricing.Subtotal(cart),
      Pricing.DiscountAmount(cart, offers),
      Pricing.Total(cart, offers))
  }

  /**
   * `handleQuantityChange(item, newQuantity)`: below one or above the line's
   * stock nothing happens; otherwise the store's `updateQuantity` runs.
   */
  function QuantityChange(cart: seq<Line>, line: Line, newQuantity: int): (r: seq<Line>)
    ensures |r| == |cart|
    ensures forall i :: 0 <= i < |cart| && cart[i].id != line.id ==> r[i] == cart[i]
    ensures forall i :: 0 <= i < |cart| && r[i] != cart[i] ==>
      r[i] == cart[i].(quantity := newQuantity) && 1 <= newQuantity <= line.stock
    ensures 1 <= newQuantity <= line.stock ==>
      forall i :: 0 <= i < |cart| && cart[i].id == line.id ==> r[i] == cart[i].(quantity := newQuantity)
  {
    if newQuantity < 1 then cart
    else if newQuantity > line.stock then cart
    else UpdateQuantity(cart, line.id, newQuantity)
  }

  /** Among lines with unique ids, a line of the cart is the one `find` returns for its id. */
  lemma {:induction false} FoundLineIsLine(cart: seq<Line>, line: Line)
    requires UniqueIds(cart) && line in cart
    ensures FindIndex(cart, line.id) < |cart| && cart[FindIndex(cart, line.id)] == line
  {
    var i :| 0 <= i < |cart| && cart[i] == line;
    var k := FindIndex(cart, line.id);
    assert k <= i;
  }

  /**
   * Edits through the page keep the store's invariants: with unique ids and
   * every line within `1..stock`, a quantity change on one of the cart's
   * lines keeps both.
   */
  lemma {:induction false} QuantityChangeKeepsBounds(cart: seq<Line>, line: Line, newQuantity: int)
    requires UniqueIds(cart) && WithinStock(cart) && line in cart
    ensures UniqueIds(QuantityChange(cart, line, newQuantity))
    ensures WithinStock(QuantityChange(cart, line, newQuantity))
  {
    if 1 <= newQuantity <= line.stock {
      FoundLineIsLine(cart, line);
      UpdateQuantityEffect(cart, line.id, newQuantity);
      var k := FindIndex(cart, line.id);
      var r := QuantityChange(cart, line, newQuantity);
      forall l | l in r
        ensures 1 <= l.quantity <= l.stock
      {
        var i :| 0 <= i < |r| && r[i] == l;
        if i != k { assert cart[i] in cart; }
      }
    }
  }

  /**
   * The minus and plus buttons pass `quantity - 1` and `quantity + 1`: on a
   * line within its stock, minus does nothing exactly at quantity 1 and plus
   * does nothing exactly at quantity = stock.
   */
  lemma {:induction false} StepButtons(cart: seq<Line>, line: Line)
    requires UniqueIds(cart) && WithinStock(cart) && line in cart
    ensures QuantityChange(cart, line, line.quantity - 1) == cart <==> line.quantity == 1
    ensures QuantityChange(cart, line, line.quantity + 1) == cart <==> line.quantity == line.stock
  {
    FoundLineIsLine(cart, line);
    var k := FindIndex(cart, line.id);
    UpdateQuantityEffect(cart, line.id, line.quantity - 1);
    UpdateQuantityEffect(cart, line.id, line.quantity + 1);
    if line.quantity != 1 {
      assert QuantityChange(cart, line, line.quantity - 1)[k].quantity != cart[k].quantity;
    }
    if line.quantity != line.stock {
      assert QuantityChange(cart, line, line.quantity + 1)[k].quantity != cart[k].quantity;
    }
  }

  class CartPage {
    /** The cart context the page reads and mutates. */
    const store: CartStore.CartContext
    var isSubmitting: bool

    constructor (store: CartStore.CartContext)
      ensures this.store == store && !isSubmitting
    {
      this.store := store;
      isSubmitting := false;
    }

    /** The checkout button is disabled while submitting or when the cart is empty. */
    predicate CheckoutDisabled()
      reads this, store
    {
      isSubmitting || |store.cart| == 0
    }

    /** `handleQuantityChange(item, newQuantity)`. */
    method HandleQuantityChange(line: Line, newQuantity: int)
      requires store.Valid()
      modifies store
      ensures store.Valid()
      ensures store.cart == QuantityChange(old(store.cart), line, newQuantity)
      ensures store.appliedOffers == old(store.appliedOffers)
      ensures WithinStock(old(store.cart)) && line in old(store.cart) ==> WithinStock(store.cart)
    {
      if WithinStock(store.cart) && line in store.cart {
        QuantityChangeKeepsBounds(store.cart, line, newQuantity);
      }
      if newQuantity < 1 {
        return;
      }
      if newQuantity > line.stock {
        return;
      }
      store.UpdateQuantity(line.id, newQuantity);
    }

    /**
     * `handleCheckout()` up to the await of the order request: an empty
     * cart sends nothing and changes nothing; otherwise `isSubmitting` is
     * set and the payload built from the current state is sent.
     */
    method BeginCheckout() returns (sent: Option<OrderPayload>)
      requires store.Valid()
      modifies this
      ensures |store.cart| == 0 ==> sent == None && isSubmitting == old(isSubmitting)
      ensures |store.cart| > 0 ==> sent == Some(BuildPayload(store.cart, store.appliedOffers)) && isSubmitting
      ensures sent.Some? ==> CheckoutDisabled()
    {
      if |store.cart| == 0 {
        return None;
      }
      isSubmitting := true;
      sent := Some(BuildPayload(store.cart, store.appliedOffers));
    }

    /**
     * `handleCheckout()` after the order request settles: `orderOk` is false
     * for a not-ok response or a thrown request. Success clears the cart,
     * failure keeps it for a retry, and `isSubmitting` ends false either way.
     */
    method FinishCheckout(orderOk: bool)
      requires store.Valid()
      modifies this, store
      ensures store.Valid() && !isSubmitting
      ensures orderOk ==> store.cart == [] && store.appliedOffers == [] && store.saved == []
      ensures !orderOk ==> unchanged(store)
    {
      if orderOk {
        store.ClearCart();
      }
      isSubmitting := false;
    }

    /** The whole `handleCheckout()` when nothing else happens while the order request is awaited. */
    method HandleCheckout(orderOk: bool) returns (sent: Option<OrderPayload>)
      requires store.Valid()
      modifies this, store
      ensures store.Valid()
      ensures old(store.cart) == [] ==> sent == None && isSubmitting == old(isSubmitting) && unchanged(store)
      ensures old(store.cart) != [] ==>
        sent == Some(BuildPayload(old(store.cart), old(store.appliedOffers))) && !isSubmitting
      ensures old(store.cart) != [] && orderOk ==> store.cart == [] && store.appliedOffers == []
      ensures old(store.cart) != [] && !orderOk ==> unchanged(store)
    {
      sent := BeginCheckout();
      if sent.Some? {
        FinishCheckout(orderOk);
      }
    }
  }
}
