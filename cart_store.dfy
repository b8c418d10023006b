/**
 * The cart provider: the two pieces of state it owns, the mutators that
 * replace them, and the values derived from them on every read.
 */
module CartStore {
  import opened CartModel
  import Pricing

  class CartContext {
    /** The cart lines, in the order they were first added. */
    var cart: seq<Line>
    /** The offers found applicable at the last successful `applyOffers`, or none since the last `clearCart`. */
    var appliedOffers: seq<Offer>
    /** The snapshot kept in local storage under the key "cart". */
    ghost var saved: seq<Line>

    /** Ids stay unique and the saved snapshot follows every change of the cart. */
    ghost predicate Valid()
      reads this
    {
      UniqueIds(cart) && saved == cart
    }

    constructor ()
      ensures Valid() && cart == [] && appliedOffers == []
    {
      cart := [];
      appliedOffers := [];
      saved := [];
    }

    /** `subtotal`, recomputed from the current cart. */
    function Subtotal(): real
      reads this
    {
      Pricing.Subtotal(cart)
    }

    /** `discountAmount`, recomputed from the current cart and the applied offers. */
    function DiscountAmount(): real
      reads this
    {
      Pricing.DiscountAmount(cart, appliedOffers)
    }

    /** `total`. */
    function Total(): real
      reads this
    {
      Pricing.Total(cart, appliedOffers)
    }

    /** `addToCart(item, quantity = 1)`. */
    method AddToCart(item: Item, quantity: int := 1)
      requires Valid()
      modifies this
      ensures Valid()
      ensures cart == CartModel.AddToCart(old(cart), item, quantity)
      ensures !AddAccepted(old(cart), item, quantity) ==> cart == old(cart)
      ensures AddAccepted(old(cart), item, quantity) ==>
        FindIndex(cart, item.id) < |cart| && cart[FindIndex(cart, item.id)].quantity <= item.stock
      ensures appliedOffers == old(appliedOffers)
    {
      AddKeepsUnique(cart, item, quantity);
      AddToCartEffect(cart, item, quantity);
      if AddAccepted(cart, item, quantity) {
        AddRespectsStock(cart, item, quantity);
      }
      cart := CartModel.AddToCart(cart, item, quantity);
      saved := cart;
    }

    /** `removeFromCart(itemId)`. */
    method RemoveFromCart(id: string)
      requires Valid()
      modifies this
      ensures Valid()
      ensures cart == CartModel.RemoveFromCart(old(cart), id)
      ensures appliedOffers == old(appliedOffers)
    {
      RemoveKeepsInvariants(cart, id);
      cart := CartModel.RemoveFromCart(cart, id);
      saved := cart;
    }

    /** `updateQuantity(itemId, quantity)`: no bound is checked here. */
    method UpdateQuantity(id: string, quantity: int)
      requires Valid()
      modifies this
      ensures Valid()
      ensures cart == CartModel.UpdateQuantity(old(cart), id, quantity)
      ensures appliedOffers == old(appliedOffers)
    {
      UpdateQuantityEffect(cart, id, quantity);
      cart := CartModel.UpdateQuantity(cart, id, quantity);
      saved := cart;
    }

    /** `clearCart()`: both pieces of state are reset, so every derived value is zero. */
    method ClearCart()
      modifies this
      ensures Valid()
      ensures cart == [] && appliedOffers == []
      ensures Subtotal() == 0.0 && DiscountAmount() == 0.0 && Total() == 0.0
    {
      cart := [];
      appliedOffers := [];
      saved := cart;
    }

    /**
     * `applyOffers()` once the offers request has settled: `fetched` is the
     * parsed offer list, or `None` when the request or the parse threw.
     */
    method ApplyOffers(fetched: Option<seq<Offer>>)
      requires Valid()
      modifies this
      ensures Valid()
      ensures cart == old(cart) && saved == old(saved)
      ensures fetched.Some? ==> appliedOffers == Pricing.Applicable(cart, fetched.value)
      ensures fetched.None? ==> appliedOffers == old(appliedOffers)
    {
      if fetched.Some? {
        appliedOffers := Pricing.Applicable(cart, fetched.value);
      }
    }
  }
}
