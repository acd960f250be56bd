/**
 * The cart page: a map from item id to the quantity shown, rebuilt from the
 * cart whenever the cart changes, the item count and price total derived
 * from it, and the handlers of the quantity input and its +/- buttons, which
 * clamp the quantity to at least one and forward it to the cart context.
 */
module CartPage {
  import opened Common
  import opened Text
  import CartContext
  import PaymentForm

  /**
   * The reduce that seeds the quantities map: each cart id to its quantity, or
   * to 1 when it is missing; an id met twice keeps the later item's quantity.
   */
  function InitialQuantities(cart: seq<Item>): (m: map<string, int>)
    ensures forall id :: id in m <==> CartContext.HasId(cart, id)
    ensures forall k :: k in m ==> m[k] != 0
  {
    if cart == [] then map[]
    else
      var last := cart[|cart| - 1];
      var m := InitialQuantities(cart[..|cart| - 1])[last.id := ItemQty(last)];
      assert forall id :: CartContext.HasId(cart, id) <==>
                          CartContext.HasId(cart[..|cart| - 1], id) || id == last.id by {
        forall id ensures CartContext.HasId(cart, id) ==>
                          CartContext.HasId(cart[..|cart| - 1], id) || id == last.id {
          if CartContext.HasId(cart, id) {
            var i :| 0 <= i < |cart| && cart[i].id == id;
            if i < |cart| - 1 {
              assert cart[..|cart| - 1][i].id == id;
            }
          }
        }
        forall id | CartContext.HasId(cart[..|cart| - 1], id) ensures CartContext.HasId(cart, id) {
          var i :| 0 <= i < |cart| - 1 && cart[..|cart| - 1][i].id == id;
          assert cart[i].id == id;
        }
        assert cart[|cart| - 1].id == last.id;
      }
      m
  }

  /** The later item wins: an id's entry is the quantity of the last item carrying it. */
  lemma {:induction false} InitialQuantitiesLastWins(cart: seq<Item>, i: int)
    requires 0 <= i < |cart|
    requires forall j :: i < j < |cart| ==> cart[j].id != cart[i].id
    ensures InitialQuantities(cart)[cart[i].id] == ItemQty(cart[i])
  {
    if i < |cart| - 1 {
      var prefix := cart[..|cart| - 1];
      InitialQuantitiesLastWins(prefix, i);
    }
  }

  /** `quantities[id] || 1`. */
  function QtyOf(m: map<string, int>, id: string): (q: int)
    ensures q != 0
    ensures id in m && m[id] != 0 ==> q == m[id]
    ensures !(id in m) || m[id] == 0 ==> q == 1
  {
    if id in m && m[id] != 0 then m[id] else 1
  }

  /** `cart.reduce((acc, item) => acc + item.price * (quantities[item.id] || 1), 0)`. */
  function TotalPrice(cart: seq<Item>, m: map<string, int>): int
  {
    if cart == [] then 0
    else TotalPrice(cart[..|cart| - 1], m) + cart[|cart| - 1].price * QtyOf(m, cart[|cart| - 1].id)
  }

  /** `cart.reduce((acc, item) => acc + (quantities[item.id] || 1), 0)`. */
  function TotalItems(cart: seq<Item>, m: map<string, int>): int
  {
    if cart == [] then 0
    else TotalItems(cart[..|cart| - 1], m) + QtyOf(m, cart[|cart| - 1].id)
  }

  /** With no negative quantity in the map, the item count is at least the number of cart lines. */
  lemma {:induction false} TotalItemsAtLeastLength(cart: seq<Item>, m: map<string, int>)
    requires forall k :: k in m ==> m[k] >= 0
    ensures TotalItems(cart, m) >= |cart|
  {
    if cart != [] {
      TotalItemsAtLeastLength(cart[..|cart| - 1], m);
    }
  }

  /** A page total over a map that agrees with every item's own quantity is the checkout total. */
  lemma {:induction false} TotalPriceAgrees(cart: seq<Item>, m: map<string, int>)
    requires forall i :: 0 <= i < |cart| ==> QtyOf(m, cart[i].id) == ItemQty(cart[i])
    ensures TotalPrice(cart, m) == PaymentForm.Total(cart)
  {
    if cart != [] {
      TotalPriceAgrees(cart[..|cart| - 1], m);
    }
  }

  /** Before any edit, the cart page and the checkout page show the same total. */
  lemma PageTotalIsCheckoutTotal(cart: seq<Item>)
    requires DistinctIds(cart)
    ensures TotalPrice(cart, InitialQuantities(cart)) == PaymentForm.Total(cart)
  {
    var m := InitialQuantities(cart);
    forall i | 0 <= i < |cart| ensures QtyOf(m, cart[i].id) == ItemQty(cart[i]) {
      InitialQuantitiesLastWins(cart, i);
    }
    TotalPriceAgrees(cart, m);
  }

  // ------------------------------------------------------- quantity input

  /** What `handleQuantityChange` receives: the empty string or a number. */
  datatype QtyInput = Blank | Num(n: int)

  /** `if (newQuantity === "" || newQuantity < 1) newQuantity = 1`. */
  function Clamp(v: QtyInput): (q: int)
    ensures q >= 1
    ensures v.Num? && v.n >= 1 ==> q == v.n
    ensures v.Blank? || v.n < 1 ==> q == 1
  {
    if v.Blank? || v.n < 1 then 1 else v.n
  }

  /** Clamping an already clamped quantity changes nothing, however often it is repeated. */
  lemma ClampIdempotent(v: QtyInput)
    ensures Clamp(Num(Clamp(v))) == Clamp(v)
  {
  }

  /** The input's `onChange`: `parseInt` the text; anything but a number of at least 1 becomes 0. */
  function InputQuantity(text: string): (v: QtyInput)
    ensures v.Num?
  {
    match ParseInt(text)
    case Some(n) => if n >= 1 then Num(n) else Num(0)
    case None => Num(0)
  }

  /** Whatever is typed, the quantity forwarded is at least 1; text that is no number gives 1. */
  lemma InputQuantityClamped(text: string)
    ensures Clamp(InputQuantity(text)) >= 1
    ensures ParseInt(text).None? ==> Clamp(InputQuantity(text)) == 1
    ensures ParseInt(text).Some? && ParseInt(text).value < 1 ==> Clamp(InputQuantity(text)) == 1
  {
  }

  /** Typing the numeral of a positive quantity forwards exactly that quantity. */
  lemma InputQuantityOfNumeral(n: nat)
    requires n >= 1
    ensures Clamp(InputQuantity(NatToString(n))) == n
  {
    ParseIntRoundTrip(n);
  }

  class CartView {
    /** The cart context the page reads and updates. */
    const carts: CartContext.CartStore
    /** The `quantities` state: item id to the quantity shown. */
    var quantities: map<string, int>

    constructor (carts: CartContext.CartStore)
      ensures this.carts == carts && quantities == map[]
    {
      this.carts := carts;
      quantities := map[];
    }

    /** The price total shown on the page. */
    function ShownTotalPrice(): int
      reads this, carts
    {
      TotalPrice(carts.cart, quantities)
    }

    /** Right after the quantities are rebuilt from an id-distinct cart, the page shows the checkout total. */
    lemma ShownTotalIsCheckoutTotal()
      requires quantities == InitialQuantities(carts.cart)
      requires DistinctIds(carts.cart)
      ensures ShownTotalPrice() == PaymentForm.Total(carts.cart)
    {
      PageTotalIsCheckoutTotal(carts.cart);
    }

    /** The effect on `[cart]`: rebuild the quantities from the cart. */
    method SyncFromCart()
      modifies this
      ensures quantities == InitialQuantities(carts.cart)
    {
      quantities := InitialQuantities(carts.cart);
    }

    /** `handleQuantityChange`: store the clamped value for this id and forward it to the cart context. */
    method HandleQuantityChange(id: string, v: QtyInput, writeOk: bool)
      modifies this, carts
      ensures quantities == old(quantities)[id := Clamp(v)]
      ensures carts.user == old(carts.user)
      ensures old(carts.user).Some? && writeOk ==>
                carts.cart == CartContext.WithQuantity(old(carts.cart), id, Clamp(v)) &&
                carts.store == old(carts.store)[old(carts.user).value := carts.cart]
      ensures old(carts.user).None? || !writeOk ==> unchanged(carts)
    {
      var q := Clamp(v);
      quantities := quantities[id := q];
      carts.UpdateQuantity(id, q, writeOk);
    }

    /** `incrementQuantity`: one more than the quantity shown (1 when there is none). */
    method Increment(id: string, writeOk: bool)
      modifies this, carts
      ensures quantities == old(quantities)[id := Clamp(Num(QtyOf(old(quantities), id) + 1))]
      ensures QtyOf(old(quantities), id) >= 1 ==> quantities[id] == QtyOf(old(quantities), id) + 1
      ensures carts.user == old(carts.user)
      ensures old(carts.user).Some? && writeOk ==>
                carts.cart == CartContext.WithQuantity(old(carts.cart), id, quantities[id]) &&
                carts.store == old(carts.store)[old(carts.user).value := carts.cart]
      ensures old(carts.user).None? || !writeOk ==> unchanged(carts)
    {
      var q := QtyOf(quantities, id) + 1;
      quantities := quantities[id := q];
      HandleQuantityChange(id, Num(q), writeOk);
    }

    /** `decrementQuantity`: one less, unless that would go below 1, in which case nothing happens. */
    method Decrement(id: string, writeOk: bool)
      modifies this, carts
      ensures QtyOf(old(quantities), id) - 1 < 1 ==> quantities == old(quantities) && unchanged(carts)
      ensures QtyOf(old(quantities), id) - 1 >= 1 ==>
                quantities == old(quantities)[id := QtyOf(old(quantities), id) - 1]
      ensures carts.user == old(carts.user)
      ensures QtyOf(old(quantities), id) - 1 >= 1 && old(carts.user).Some? && writeOk ==>
                carts.cart == CartContext.WithQuantity(old(carts.cart), id, quantities[id]) &&
                carts.store == old(carts.store)[old(carts.user).value := carts.cart]
      ensures old(carts.user).None? || !writeOk ==> unchanged(carts)
    {
      var q := QtyOf(quantities, id) - 1;
      if q >= 1 {
        quantities := quantities[id := q];
        HandleQuantityChange(id, Num(q), writeOk);
      }
    }

    /** The number input's `onChange`. */
    method HandleInput(id: string, text: string, writeOk: bool)
      modifies this, carts
      ensures quantities == old(quantities)[id := Clamp(InputQuantity(text))]
      ensures quantities[id] >= 1
      ensures carts.user == old(carts.user)
      ensures old(carts.user).Some? && writeOk ==>
                carts.cart == CartContext.WithQuantity(old(carts.cart), id, quantities[id]) &&
                carts.store == old(carts.store)[old(carts.user).value := carts.cart]
      ensures old(carts.user).None? || !writeOk ==> unchanged(carts)
    {
      HandleQuantityChange(id, InputQuantity(text), writeOk);
    }
  }
}
