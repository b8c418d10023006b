/**
 * The values the cart store works on, and the sequence updates its mutators
 * build with `find`, `map` and `filter`.
 */
module CartModel {

  datatype Option<T> = None | Some(value: T)

  /** A catalog item as the items endpoint returns it. */
  datatype Item = Item(id: string, name: string, category: string, price: real, stock: int)

  /** A cart line: the item's fields at the time it was first added, plus a quantity. */
  datatype Line = Line(id: string, name: string, category: string, price: real, stock: int, quantity: int)

  /** A promotional offer as the offers endpoint returns it. */
  datatype Offer = Offer(
    id: string,
    name: string,
    description: string,
    category: string,
    discountPercentage: real,
    minQuantity: int,
    validUntil: string)

  /** The catalog fields a line carries, without its quantity. */
  function ItemOf(l: Line): Item
  {
    Item(l.id, l.name, l.category, l.price, l.stock)
  }

  /**
   * The line `{ ...item, quantity }` appended for an item not yet in the
   * cart: it carries every field of the item, unchanged, and the quantity.
   */
  function NewLine(item: Item, quantity: int): (l: Line)
    ensures ItemOf(l) == item && l.quantity == quantity
  {
    Line(item.id, item.name, item.category, item.price, item.stock, quantity)
  }

  /** At most one line per id. */
  ghost predicate UniqueIds(cart: seq<Line>)
  {
    forall i, j :: 0 <= i < j < |cart| ==> cart[i].id != cart[j].id
  }

  /** Every line holds between one and its recorded stock. */
  ghost predicate WithinStock(cart: seq<Line>)
  {
    forall l :: l in cart ==> 1 <= l.quantity <= l.stock
  }

  /** Every line for the item's id records the same stock as the item. */
  ghost predicate StockAgrees(cart: seq<Line>, item: Item)
  {
    forall l :: l in cart && l.id == item.id ==> l.stock == item.stock
  }

  /**
   * Position of the first line with the given id, as `cart.find` picks it;
   * `|cart|` when there is none.
   */
  function FindIndex(cart: seq<Line>, id: string): (k: nat)
    ensures k <= |cart|
    ensures k < |cart| ==> cart[k].id == id
    ensures forall i :: 0 <= i < k ==> cart[i].id != id
  {
    if |cart| == 0 then 0
    else if cart[0].id == id then 0
    else 1 + FindIndex(cart[1..], id)
  }

  /**
   * The two quantity rewrites the store's `map` calls perform: `addToCart`
   * adds to the line's quantity, `updateQuantity` overwrites it.
   */
  datatype QuantityEdit = Increase(amount: int) | SetTo(value: int)

  function ApplyEdit(e: QuantityEdit, q: int): int
  {
    match e
    case Increase(amount) => q + amount
    case SetTo(value) => value
  }

  /**
   * `cart.map(l => l.id === id ? { ...l, quantity: f(l.quantity) } : l)`:
   * each line with that id gets a new quantity, every other line and every
   * other field stay as they were, and the order is kept.
   */
  function MapQuantity(cart: seq<Line>, id: string, f: QuantityEdit): (r: seq<Line>)
    ensures |r| == |cart|
    ensures forall i :: 0 <= i < |cart| && cart[i].id != id ==> r[i] == cart[i]
    ensures forall i :: 0 <= i < |cart| && cart[i].id == id ==> r[i] == cart[i].(quantity := ApplyEdit(f, cart[i].quantity))
  {
    if |cart| == 0 then []
    else
      var head := if cart[0].id == id then cart[0].(quantity := ApplyEdit(f, cart[0].quantity)) else cart[0];
      [head] + MapQuantity(cart[1..], id, f)
  }

  /**
   * The stock test of `addToCart`: the quantity the line would end with fits
   * the item's stock. That line is the first one with the item's id; with
   * no such line, the quantity alone must fit.
   */
  predicate AddAccepted(cart: seq<Line>, item: Item, quantity: int): (b: bool)
    ensures (forall i :: 0 <= i < |cart| ==> cart[i].id != item.id) ==> (b <==> quantity <= item.stock)
    ensures forall i :: 0 <= i < |cart| && cart[i].id == item.id && (forall j :: 0 <= j < i ==> cart[j].id != item.id) ==>
      (b <==> cart[i].quantity + quantity <= item.stock)
  {
    var k := FindIndex(cart, item.id);
    (if k < |cart| then cart[k].quantity else 0) + quantity <= item.stock
  }

  /**
   * `addToCart(item, quantity)`: merge into the line found for `item.id` or
   * append a new line, unless the result would exceed `item.stock`, in which
   * case the cart is returned as it was.
   */
  function AddToCart(cart: seq<Line>, item: Item, quantity: int): (r: seq<Line>)
    ensures !AddAccepted(cart, item, quantity) ==> r == cart
    ensures AddAccepted(cart, item, quantity) ==>
      |r| == |cart| + (if FindIndex(cart, item.id) < |cart| then 0 else 1)
    ensures forall i :: 0 <= i < |cart| && cart[i].id != item.id ==> r[i] == cart[i]
    ensures AddAccepted(cart, item, quantity) && FindIndex(cart, item.id) < |cart| ==>
      forall i :: 0 <= i < |cart| && cart[i].id == item.id ==> r[i] == cart[i].(quantity := cart[i].quantity + quantity)
    ensures FindIndex(cart, item.id) == |cart| && AddAccepted(cart, item, quantity) ==>
      r[|cart|] == NewLine(item, quantity)
  {
    var k := FindIndex(cart, item.id);
    if k < |cart| then
      if cart[k].quantity + quantity > item.stock then cart
      else MapQuantity(cart, item.id, Increase(quantity))
    else if quantity > item.stock then cart
    else cart + [NewLine(item, quantity)]
  }

  /** `removeFromCart(id)`: `cart.filter(l => l.id !== id)`. */
  function RemoveFromCart(cart: seq<Line>, id: string): (r: seq<Line>)
    ensures |r| <= |cart|
    ensures forall l :: l in r <==> l in cart && l.id != id
    ensures FindIndex(cart, id) == |cart| ==> r == cart
  {
    if |cart| == 0 then []
    else if cart[0].id == id then RemoveFromCart(cart[1..], id)
    else [cart[0]] + RemoveFromCart(cart[1..], id)
  }

  /** `updateQuantity(id, quantity)`: overwrite the quantity of the matching lines, unchecked. */
  function UpdateQuantity(cart: seq<Line>, id: string, quantity: int): (r: seq<Line>)
    ensures |r| == |cart|
    ensures forall i :: 0 <= i < |cart| ==>
      r[i] == if cart[i].id == id then cart[i].(quantity := quantity) else cart[i]
  {
    MapQuantity(cart, id, SetTo(quantity))
  }

  /** Two carts whose lines carry the same ids position by position find the same first index. */
  lemma {:induction false} FindIndexSameIds(a: seq<Line>, b: seq<Line>, id: string)
    requires |a| == |b|
    requires forall i :: 0 <= i < |a| ==> a[i].id == b[i].id
    ensures FindIndex(a, id) == FindIndex(b, id)
  {
    if |a| > 0 && a[0].id != id {
      FindIndexSameIds(a[1..], b[1..], id);
    }
  }

  /** In a cart with unique ids, mapping one id changes exactly the line `find` returns. */
  lemma {:induction false} MapQuantityUnique(cart: seq<Line>, id: string, f: QuantityEdit)
    requires UniqueIds(cart)
    ensures var k := FindIndex(cart, id);
      MapQuantity(cart, id, f)
      == if k < |cart| then cart[k := cart[k].(quantity := ApplyEdit(f, cart[k].quantity))] else cart
  {
    var k := FindIndex(cart, id);
    var r := MapQuantity(cart, id, f);
    if k < |cart| {
      forall i | 0 <= i < |cart| && i != k
        ensures cart[i].id != id
      {
        if i > k { assert cart[k].id != cart[i].id; }
      }
    }
  }

  /**
   * The three outcomes of `addToCart` on a cart with unique ids: rejected,
   * the cart is unchanged; accepted for an id already present, only that
   * line's quantity grows by `quantity`; accepted for a new id, exactly one
   * line is appended at the end.
   */
  lemma {:induction false} AddToCartEffect(cart: seq<Line>, item: Item, quantity: int)
    requires UniqueIds(cart)
    ensures !AddAccepted(cart, item, quantity) ==> AddToCart(cart, item, quantity) == cart
    ensures var k := FindIndex(cart, item.id);
      AddAccepted(cart, item, quantity) && k < |cart| ==>
        AddToCart(cart, item, quantity) == cart[k := cart[k].(quantity := cart[k].quantity + quantity)]
    ensures FindIndex(cart, item.id) == |cart| && AddAccepted(cart, item, quantity) ==>
      AddToCart(cart, item, quantity) == cart + [NewLine(item, quantity)]
  {
    var k := FindIndex(cart, item.id);
    if k < |cart| && AddAccepted(cart, item, quantity) {
      MapQuantityUnique(cart, item.id, Increase(quantity));
      assert AddToCart(cart, item, quantity) == MapQuantity(cart, item.id, Increase(quantity));
    }
  }

  /** After an accepted add, the line `find` returns for the item holds at most `item.stock`. */
  lemma {:induction false} AddRespectsStock(cart: seq<Line>, item: Item, quantity: int)
    requires AddAccepted(cart, item, quantity)
    ensures var r := AddToCart(cart, item, quantity);
      var j := FindIndex(r, item.id);
      j < |r| && r[j].quantity <= item.stock
  {
    var k := FindIndex(cart, item.id);
    var r := AddToCart(cart, item, quantity);
    if k < |cart| {
      FindIndexSameIds(cart, r, item.id);
    } else {
      assert r == cart + [NewLine(item, quantity)];
      FindIndexAppend(cart, NewLine(item, quantity));
    }
  }

  /** Appending a line whose id is absent makes `find` return that last line. */
  lemma {:induction false} FindIndexAppend(cart: seq<Line>, l: Line)
    requires FindIndex(cart, l.id) == |cart|
    ensures FindIndex(cart + [l], l.id) == |cart|
  {
    if |cart| > 0 {
      assert (cart + [l])[1..] == cart[1..] + [l];
      FindIndexAppend(cart[1..], l);
    }
  }

  /** `addToCart` keeps at most one line per id, whether it accepts or rejects. */
  lemma {:induction false} AddKeepsUnique(cart: seq<Line>, item: Item, quantity: int)
    requires UniqueIds(cart)
    ensures UniqueIds(AddToCart(cart, item, quantity))
  {
    var k := FindIndex(cart, item.id);
    var r := AddToCart(cart, item, quantity);
    if k == |cart| && quantity <= item.stock {
      forall i, j | 0 <= i < j < |r|
        ensures r[i].id != r[j].id
      {
        if j == |cart| { assert r[i] == cart[i]; }
      }
    }
  }

  /**
   * Adding a positive quantity of an item whose catalog stock agrees with
   * the line already in the cart keeps every line within `1..stock`.
   */
  lemma {:induction false} AddKeepsStockBounds(cart: seq<Line>, item: Item, quantity: int)
    requires UniqueIds(cart) && WithinStock(cart) && StockAgrees(cart, item)
    requires quantity >= 1
    ensures WithinStock(AddToCart(cart, item, quantity))
  {
    AddToCartEffect(cart, item, quantity);
    var k := FindIndex(cart, item.id);
    var r := AddToCart(cart, item, quantity);
    if AddAccepted(cart, item, quantity) && k < |cart| {
      assert cart[k] in cart;
      forall l | l in r
        ensures 1 <= l.quantity <= l.stock
      {
        var i :| 0 <= i < |r| && r[i] == l;
        if i != k { assert cart[i] in cart; }
      }
    }
  }

  /** The tail of a cart with unique ids has unique ids, none equal to the head's. */
  lemma {:induction false} UniqueTail(cart: seq<Line>)
    requires UniqueIds(cart) && |cart| > 0
    ensures UniqueIds(cart[1..])
    ensures FindIndex(cart[1..], cart[0].id) == |cart| - 1
  {
    var t := cart[1..];
    forall i, j | 0 <= i < j < |t| ensures t[i].id != t[j].id {
      assert t[i] == cart[i + 1] && t[j] == cart[j + 1];
    }
  }

  /** With unique ids, removing an id cuts exactly the line `find` returns and keeps the rest in order. */
  lemma {:induction false} RemoveSplices(cart: seq<Line>, id: string)
    requires UniqueIds(cart)
    ensures var k := FindIndex(cart, id);
      RemoveFromCart(cart, id) == if k < |cart| then cart[..k] + cart[k + 1..] else cart
  {
    if |cart| > 0 {
      var t := cart[1..];
      UniqueTail(cart);
      RemoveSplices(t, id);
      var k := FindIndex(cart, id);
      if cart[0].id == id {
        assert cart[..0] + cart[1..] == t;
      } else if k < |cart| {
        assert FindIndex(t, id) == k - 1;
        SpliceCons(cart, k);
      }
    }
  }

  /** Cutting position `k > 0` out of a sequence keeps its head in front of the cut tail. */
  lemma SpliceCons(cart: seq<Line>, k: nat)
    requires 0 < k < |cart|
    ensures cart[..k] + cart[k + 1..] == [cart[0]] + (cart[1..][..k - 1] + cart[1..][k..])
  {
  }

  /** Element `i` of a sequence with position `k` cut out. */
  lemma SpliceAt(cart: seq<Line>, k: nat, i: nat)
    requires k < |cart| && i < |cart| - 1
    ensures (cart[..k] + cart[k + 1..])[i] == cart[if i < k then i else i + 1]
  {
  }

  /** `removeFromCart` keeps ids unique and keeps every remaining line within its stock. */
  lemma {:induction false} RemoveKeepsInvariants(cart: seq<Line>, id: string)
    requires UniqueIds(cart)
    ensures UniqueIds(RemoveFromCart(cart, id))
    ensures WithinStock(cart) ==> WithinStock(RemoveFromCart(cart, id))
  {
    RemoveSplices(cart, id);
    var k := FindIndex(cart, id);
    if k < |cart| {
      var r := RemoveFromCart(cart, id);
      forall i, j | 0 <= i < j < |r|
        ensures r[i].id != r[j].id
      {
        SpliceAt(cart, k, i);
        SpliceAt(cart, k, j);
      }
    }
  }

  /**
   * `updateQuantity` on a cart with unique ids: only the matching line's
   * quantity is overwritten, with no check; an absent id leaves the cart as
   * it was; the ids, and so their uniqueness, are kept.
   */
  lemma {:induction false} UpdateQuantityEffect(cart: seq<Line>, id: string, quantity: int)
    requires UniqueIds(cart)
    ensures var k := FindIndex(cart, id);
      UpdateQuantity(cart, id, quantity)
      == if k < |cart| then cart[k := cart[k].(quantity := quantity)] else cart
    ensures UniqueIds(UpdateQuantity(cart, id, quantity))
  {
    MapQuantityUnique(cart, id, SetTo(quantity));
  }
}
