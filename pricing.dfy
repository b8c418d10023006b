/**
 * The values the cart store derives on every read: the subtotal, the offers
 * that apply to the cart, the discount of the applied offers and the total.
 * Arithmetic is exact (`real`), so the order in which `reduce` adds up the
 * terms does not matter, and sums are written head first.
 */
module Pricing {
  import opened CartModel

  /** `item.price * item.quantity` for one line. */
  function LineTotal(l: Line): real
  {
    l.price * (l.quantity as real)
  }

  /** `cart.reduce((total, item) => total + item.price * item.quantity, 0)`. */
  function Subtotal(cart: seq<Line>): real
  {
    if |cart| == 0 then 0.0 else LineTotal(cart[0]) + Subtotal(cart[1..])
  }

  /** No line has a negative price or quantity. */
  ghost predicate NonNegative(cart: seq<Line>)
  {
    forall l :: l in cart ==> l.price >= 0.0 && l.quantity >= 0
  }

  /** `cart.filter(item => item.category === c)`. */
  function InCategory(cart: seq<Line>, c: string): (r: seq<Line>)
    ensures |r| <= |cart|
    ensures forall l :: l in r <==> l in cart && l.category == c
    ensures |r| == |cart| ==> r == cart
  {
    if |cart| == 0 then []
    else if cart[0].category == c then [cart[0]] + InCategory(cart[1..], c)
    else InCategory(cart[1..], c)
  }

  /** The subtotal of the lines in one category. */
  function CategorySubtotal(cart: seq<Line>, c: string): real
  {
    Subtotal(InCategory(cart, c))
  }

  /** What one applied offer takes off: its category's subtotal times `discountPercentage / 100`. */
  function OfferDiscount(cart: seq<Line>, o: Offer): real
  {
    CategorySubtotal(cart, o.category) * (o.discountPercentage / 100.0)
  }

  /** `discountAmount`: the offers' discounts added up, with no de-duplication and no cap. */
  function DiscountAmount(cart: seq<Line>, offers: seq<Offer>): real
  {
    if |offers| == 0 then 0.0 else OfferDiscount(cart, offers[0]) + DiscountAmount(cart, offers[1..])
  }

  /** `total = subtotal - discountAmount`, with no floor at zero. */
  function Total(cart: seq<Line>, offers: seq<Offer>): real
  {
    Subtotal(cart) - DiscountAmount(cart, offers)
  }

  /**
   * `cart.some(item => item.category === o.category && item.quantity >= o.minQuantity)`:
   * a single line must reach the threshold; quantities are not pooled per category.
   */
  function Qualifies(cart: seq<Line>, o: Offer): (b: bool)
    ensures b <==> exists i :: 0 <= i < |cart| && cart[i].category == o.category && cart[i].quantity >= o.minQuantity
  {
    if |cart| == 0 then false
    else (cart[0].category == o.category && cart[0].quantity >= o.minQuantity) || Qualifies(cart[1..], o)
  }

  /** `offers.filter(offer => cart.some(...))`; `validUntil` is not looked at. */
  function Applicable(cart: seq<Line>, offers: seq<Offer>): (r: seq<Offer>)
    ensures |r| <= |offers|
    ensures forall o :: o in r <==> o in offers && Qualifies(cart, o)
  {
    if |offers| == 0 then []
    else if Qualifies(cart, offers[0]) then [offers[0]] + Applicable(cart, offers[1..])
    else Applicable(cart, offers[1..])
  }

  /** The subtotal of two carts put end to end is the sum of their subtotals. */
  lemma {:induction false} SubtotalConcat(a: seq<Line>, b: seq<Line>)
    ensures Subtotal(a + b) == Subtotal(a) + Subtotal(b)
  {
    if |a| == 0 {
      assert a + b == b;
    } else {
      assert (a + b)[1..] == a[1..] + b;
      SubtotalConcat(a[1..], b);
    }
  }

  /** Replacing one line changes the subtotal by the difference of the two line totals. */
  lemma {:induction false} SubtotalReplace(cart: seq<Line>, k: nat, l: Line)
    requires k < |cart|
    ensures Subtotal(cart[k := l]) == Subtotal(cart) - LineTotal(cart[k]) + LineTotal(l)
  {
    if k == 0 {
      assert cart[k := l][1..] == cart[1..];
    } else {
      assert cart[k := l][1..] == cart[1..][k - 1 := l];
      SubtotalReplace(cart[1..], k - 1, l);
    }
  }

  /** Cutting one line out lowers the subtotal by that line's total. */
  lemma {:induction false} SubtotalSplice(cart: seq<Line>, k: nat)
    requires k < |cart|
    ensures Subtotal(cart[..k] + cart[k + 1..]) == Subtotal(cart) - LineTotal(cart[k])
  {
    assert cart == cart[..k] + ([cart[k]] + cart[k + 1..]);
    SubtotalConcat(cart[..k], [cart[k]] + cart[k + 1..]);
    SubtotalConcat(cart[..k], cart[k + 1..]);
    assert ([cart[k]] + cart[k + 1..])[1..] == cart[k + 1..];
  }

  /** With no negative prices or quantities, the subtotal is not negative. */
  lemma {:induction false} SubtotalNonNegative(cart: seq<Line>)
    requires NonNegative(cart)
    ensures Subtotal(cart) >= 0.0
  {
    if |cart| > 0 {
      assert cart[0] in cart;
      assert NonNegative(cart[1..]) by {
        forall l | l in cart[1..] ensures l.price >= 0.0 && l.quantity >= 0 {
          assert l in cart;
        }
      }
      SubtotalNonNegative(cart[1..]);
    }
  }

  /**
   * On a cart with unique ids, `addToCart` raises the subtotal by the
   * price of the merged line (or of the new item) times the quantity added,
   * and leaves it as it was when it rejects.
   */
  lemma {:induction false} SubtotalAfterAdd(cart: seq<Line>, item: Item, quantity: int)
    requires UniqueIds(cart)
    ensures var k := FindIndex(cart, item.id);
      var price := if k < |cart| then cart[k].price else item.price;
      Subtotal(AddToCart(cart, item, quantity))
      == Subtotal(cart) + (if AddAccepted(cart, item, quantity) then price * (quantity as real) else 0.0)
  {
    AddToCartEffect(cart, item, quantity);
    var k := FindIndex(cart, item.id);
    if AddAccepted(cart, item, quantity) {
      if k < |cart| {
        SubtotalAfterMerge(cart, k, quantity);
      } else {
        SubtotalConcat(cart, [NewLine(item, quantity)]);
      }
    }
  }

  /** Raising one line's quantity by `q` raises the subtotal by that line's price times `q`. */
  lemma {:induction false} SubtotalAfterMerge(cart: seq<Line>, k: nat, q: int)
    requires k < |cart|
    ensures Subtotal(cart[k := cart[k].(quantity := cart[k].quantity + q)])
      == Subtotal(cart) + cart[k].price * (q as real)
  {
    var l := cart[k].(quantity := cart[k].quantity + q);
    SubtotalReplace(cart, k, l);
    assert (l.quantity as real) == (cart[k].quantity as real) + (q as real);
    assert LineTotal(l) == cart[k].price * (cart[k].quantity as real) + cart[k].price * (q as real);
  }

  /** On a cart with unique ids, `removeFromCart` lowers the subtotal by the removed line's total. */
  lemma {:induction false} SubtotalAfterRemove(cart: seq<Line>, id: string)
    requires UniqueIds(cart)
    ensures var k := FindIndex(cart, id);
      Subtotal(RemoveFromCart(cart, id)) == Subtotal(cart) - (if k < |cart| then LineTotal(cart[k]) else 0.0)
  {
    var k := FindIndex(cart, id);
    RemoveSplices(cart, id);
    if k < |cart| {
      var rest := cart[..k] + cart[k + 1..];
      assert RemoveFromCart(cart, id) == rest;
      SubtotalSplice(cart, k);
    }
  }

  /** The category filter works line by line: filtering two carts end to end filters each, in order. */
  lemma {:induction false} InCategoryConcat(a: seq<Line>, b: seq<Line>, c: string)
    ensures InCategory(a + b, c) == InCategory(a, c) + InCategory(b, c)
  {
    if |a| == 0 {
      assert a + b == b;
    } else {
      assert (a + b)[1..] == a[1..] + b;
      InCategoryConcat(a[1..], b, c);
    }
  }

  /** A category's subtotal of two carts end to end is the sum of the two carts' category subtotals. */
  lemma {:induction false} CategorySubtotalConcat(a: seq<Line>, b: seq<Line>, c: string)
    ensures CategorySubtotal(a + b, c) == CategorySubtotal(a, c) + CategorySubtotal(b, c)
  {
    InCategoryConcat(a, b, c);
    SubtotalConcat(InCategory(a, c), InCategory(b, c));
  }

  /** With no negative prices or quantities, a category's subtotal lies between 0 and the whole subtotal. */
  lemma {:induction false} CategorySubtotalBounds(cart: seq<Line>, c: string)
    requires NonNegative(cart)
    ensures 0.0 <= CategorySubtotal(cart, c) <= Subtotal(cart)
  {
    if |cart| > 0 {
      assert cart[0] in cart;
      assert NonNegative(cart[1..]) by {
        forall l | l in cart[1..] ensures l.price >= 0.0 && l.quantity >= 0 {
          assert l in cart;
        }
      }
      CategorySubtotalBounds(cart[1..], c);
      assert LineTotal(cart[0]) >= 0.0;
    }
  }

  /** Discounts stack additively: applying two lists of offers takes off the sum of both discounts. */
  lemma {:induction false} DiscountConcat(cart: seq<Line>, a: seq<Offer>, b: seq<Offer>)
    ensures DiscountAmount(cart, a + b) == DiscountAmount(cart, a) + DiscountAmount(cart, b)
  {
    if |a| == 0 {
      assert a + b == b;
    } else {
      assert (a + b)[1..] == a[1..] + b;
      DiscountConcat(cart, a[1..], b);
    }
  }

  /**
   * Two offers on one category take off the sum of their percentages of that
   * category's subtotal: 10% and 20% of a 100 category subtotal take off 30.
   */
  lemma {:induction false} TwoOffersStack(cart: seq<Line>, o1: Offer, o2: Offer)
    requires o1.category == o2.category
    ensures DiscountAmount(cart, [o1, o2])
      == CategorySubtotal(cart, o1.category) * ((o1.discountPercentage + o2.discountPercentage) / 100.0)
    ensures (CategorySubtotal(cart, o1.category) == 100.0 && o1.discountPercentage == 10.0
             && o2.discountPercentage == 20.0) ==> DiscountAmount(cart, [o1, o2]) == 30.0
  {
    assert [o1, o2][1..] == [o2];
    assert [o2][1..] == [];
    var cs := CategorySubtotal(cart, o1.category);
    var a, b := o1.discountPercentage / 100.0, o2.discountPercentage / 100.0;
    assert (o1.discountPercentage + o2.discountPercentage) / 100.0 == a + b;
    assert cs * (a + b) == cs * a + cs * b;
    assert DiscountAmount(cart, [o2]) == cs * b + DiscountAmount(cart, []);
    assert DiscountAmount(cart, [o1, o2]) == cs * a + DiscountAmount(cart, [o2]);
  }

  /** With no negative prices, quantities or percentages, the discount is not negative. */
  lemma {:induction false} DiscountNonNegative(cart: seq<Line>, offers: seq<Offer>)
    requires NonNegative(cart)
    requires forall o :: o in offers ==> o.discountPercentage >= 0.0
    ensures DiscountAmount(cart, offers) >= 0.0
  {
    if |offers| > 0 {
      assert offers[0] in offers;
      CategorySubtotalBounds(cart, offers[0].category);
      assert forall o :: o in offers[1..] ==> o in offers;
      DiscountNonNegative(cart, offers[1..]);
    }
  }

  /**
   * A single offer of at most 100% never takes the total below zero; a
   * negative total needs several offers stacked on one category.
   */
  lemma {:induction false} SingleOfferTotalNonNegative(cart: seq<Line>, o: Offer)
    requires NonNegative(cart)
    requires 0.0 <= o.discountPercentage <= 100.0
    ensures 0.0 <= Total(cart, [o]) <= Subtotal(cart)
  {
    assert [o][1..] == [];
    var cs := CategorySubtotal(cart, o.category);
    CategorySubtotalBounds(cart, o.category);
    var p := o.discountPercentage / 100.0;
    assert 0.0 <= p <= 1.0;
    assert cs * p >= 0.0;
    assert cs - cs * p == cs * (1.0 - p);
    assert cs * (1.0 - p) >= 0.0;
    assert DiscountAmount(cart, [o]) == cs * p;
  }

  /**
   * The discount is computed from the cart as it is now: offers whose
   * category has no line left in the cart take nothing off, even though
   * they stay applied.
   */
  lemma {:induction false} DiscountWithoutCategoryLines(cart: seq<Line>, offers: seq<Offer>)
    requires forall o :: o in offers ==> InCategory(cart, o.category) == []
    ensures DiscountAmount(cart, offers) == 0.0
  {
    if |offers| > 0 {
      assert offers[0] in offers;
      assert forall o :: o in offers[1..] ==> o in offers;
      DiscountWithoutCategoryLines(cart, offers[1..]);
    }
  }

  /** The applicability filter keeps the fetched order: filtering two lists end to end filters each. */
  lemma {:induction false} ApplicableConcat(cart: seq<Line>, a: seq<Offer>, b: seq<Offer>)
    ensures Applicable(cart, a + b) == Applicable(cart, a) + Applicable(cart, b)
  {
    if |a| == 0 {
      assert a + b == b;
    } else {
      assert (a + b)[1..] == a[1..] + b;
      ApplicableConcat(cart, a[1..], b);
    }
  }

  /** When every fetched offer qualifies, all of them are applied, in fetched order. */
  lemma {:induction false} ApplicableAll(cart: seq<Line>, offers: seq<Offer>)
    requires forall o :: o in offers ==> Qualifies(cart, o)
    ensures Applicable(cart, offers) == offers
  {
    if |offers| > 0 {
      assert offers[0] in offers;
      assert forall o :: o in offers[1..] ==> o in offers;
      ApplicableAll(cart, offers[1..]);
    }
  }

  /** Against an empty cart no offer applies and nothing is discounted. */
  lemma {:induction false} EmptyCartPricing(offers: seq<Offer>)
    ensures Applicable([], offers) == []
    ensures DiscountAmount([], offers) == 0.0
    ensures Total([], offers) == 0.0
  {
    if |offers| > 0 {
      EmptyCartPricing(offers[1..]);
    }
  }

  /**
   * A cart with one line of 5 drinks and an offer of 10% on drinks from 3
   * upwards: the offer applies and takes off a tenth of that line's total.
   */
  lemma {:induction false} DrinksOffer(price: real, o: Offer)
    requires o.category == "drinks" && o.minQuantity == 3 && o.discountPercentage == 10.0
    ensures var cart := [Line("d1", "Lemonade", "drinks", price, 10, 5)];
      Applicable(cart, [o]) == [o] && DiscountAmount(cart, Applicable(cart, [o])) == 0.10 * (price * 5.0)
  {
    var cart := [Line("d1", "Lemonade", "drinks", price, 10, 5)];
    assert Qualifies(cart, o) by {
      assert cart[0].category == o.category && cart[0].quantity >= o.minQuantity;
    }
    assert InCategory(cart, "drinks") == cart;
    assert [o][1..] == [];
    assert Subtotal(cart) == price * 5.0;
    assert price * 5.0 * (10.0 / 100.0) == 0.10 * (price * 5.0);
  }

  /**
   * Two drinks lines of 2 each do not unlock an offer from 3 upwards:
   * the threshold is tested per line, not on the category's total quantity.
   */
  lemma {:induction false} PerLineThreshold(o: Offer)
    requires o.category == "drinks" && o.minQuantity == 3
    ensures var cart := [Line("d1", "Lemonade", "drinks", 1.0, 10, 2), Line("d2", "Cola", "drinks", 1.0, 10, 2)];
      cart[0].quantity + cart[1].quantity >= o.minQuantity && Applicable(cart, [o]) == []
  {
    var cart := [Line("d1", "Lemonade", "drinks", 1.0, 10, 2), Line("d2", "Cola", "drinks", 1.0, 10, 2)];
    assert !Qualifies(cart, o);
  }

  /** Two 60% offers on the only line's category take the total below zero: there is no floor. */
  lemma {:induction false} NegativeTotal(o1: Offer, o2: Offer)
    requires o1.category == "snacks" && o2.category == "snacks"
    requires o1.discountPercentage == 60.0 && o2.discountPercentage == 60.0
    ensures Total([Line("s1", "Crisps", "snacks", 10.0, 5, 1)], [o1, o2]) == -2.0
  {
    var cart := [Line("s1", "Crisps", "snacks", 10.0, 5, 1)];
    assert InCategory(cart, "snacks") == cart;
    TwoOffersStack(cart, o1, o2);
  }
}
