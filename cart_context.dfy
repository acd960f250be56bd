/**
 * The cart context: the signed-in user's cart held in memory and mirrored,
 * as one whole document, at `carts/{uid}` in the remote store. Every
 * operation builds a new sequence from the current one, writes it remotely
 * and commits it in memory: add and update-quantity commit only once the
 * write succeeded; remove and empty commit whatever the write does.
 */
module CartContext {
  import opened Common

  /** `cart.some(item => item.id === id)`. */
  predicate HasId(cart: seq<Item>, id: string)
  {
    exists i :: 0 <= i < |cart| && cart[i].id == id
  }

  /** The cart `addToCart` would write: unchanged if the id is present, else extended by the product. */
  function WithProduct(cart: seq<Item>, product: Item): (r: seq<Item>)
    ensures HasId(cart, product.id) ==> r == cart
    ensures !HasId(cart, product.id) ==> r == cart + [product]
    ensures HasId(r, product.id)
    ensures DistinctIds(cart) ==> DistinctIds(r)
  {
    if HasId(cart, product.id) then cart
    else
      var r := cart + [product];
      assert r[|cart|].id == product.id;
      r
  }

  /** `cart.filter(product => product.id !== id)`. */
  function WithoutId(cart: seq<Item>, id: string): (r: seq<Item>)
    ensures |r| <= |cart|
  {
    if cart == [] then []
    else (if cart[0].id == id then [] else [cart[0]]) + WithoutId(cart[1..], id)
  }

  /** What stays is exactly the items of other ids, so the id is gone. */
  lemma {:induction false} WithoutIdSpec(cart: seq<Item>, id: string)
    ensures forall x :: x in WithoutId(cart, id) <==> x in cart && x.id != id
    ensures !HasId(WithoutId(cart, id), id)
  {
    if cart != [] {
      WithoutIdSpec(cart[1..], id);
      assert cart == [cart[0]] + cart[1..];
    }
  }

  /** `cart.map(p => p.id === id ? {...p, quantity: q} : p)`. */
  function WithQuantity(cart: seq<Item>, id: string, q: int): (r: seq<Item>)
    ensures |r| == |cart|
    ensures forall i :: 0 <= i < |cart| && cart[i].id == id ==> r[i].quantity == Some(q)
    ensures forall i :: 0 <= i < |cart| && cart[i].id != id ==> r[i] == cart[i]
    ensures forall i :: 0 <= i < |cart| ==> r[i].(quantity := cart[i].quantity) == cart[i]
  {
    if cart == [] then []
    else [if cart[0].id == id then cart[0].(quantity := Some(q)) else cart[0]]
         + WithQuantity(cart[1..], id, q)
  }

  /** Setting a quantity keeps the ids, in order. */
  lemma WithQuantityKeepsIds(cart: seq<Item>, id: string, q: int)
    ensures Ids(WithQuantity(cart, id, q)) == Ids(cart)
  {
    var r := WithQuantity(cart, id, q);
    assert forall i :: 0 <= i < |cart| ==> r[i].id == r[i].(quantity := cart[i].quantity).id;
  }

  /** Removing keeps the order of what stays: it works piecewise on a concatenation. */
  lemma {:induction false} WithoutIdAppend(a: seq<Item>, b: seq<Item>, id: string)
    ensures WithoutId(a + b, id) == WithoutId(a, id) + WithoutId(b, id)
  {
    if a != [] {
      var h: seq<Item> := if a[0].id == id then [] else [a[0]];
      assert (a + b)[0] == a[0];
      assert (a + b)[1..] == a[1..] + b;
      WithoutIdAppend(a[1..], b, id);
      calc {
        WithoutId(a + b, id);
        h + WithoutId(a[1..] + b, id);
        h + (WithoutId(a[1..], id) + WithoutId(b, id));
        (h + WithoutId(a[1..], id)) + WithoutId(b, id);
      }
    } else {
      assert a + b == b;
    }
  }

  /** Removing an id the cart does not hold changes nothing. */
  lemma {:induction false} WithoutIdAbsent(cart: seq<Item>, id: string)
    requires !HasId(cart, id)
    ensures WithoutId(cart, id) == cart
  {
    if cart != [] {
      WithoutIdAbsent(cart[1..], id);
    }
  }

  /** Removing a product just added gives back the cart it was added to. */
  lemma AddThenRemove(cart: seq<Item>, product: Item)
    requires !HasId(cart, product.id)
    ensures WithoutId(WithProduct(cart, product), product.id) == cart
  {
    WithoutIdAppend(cart, [product], product.id);
    WithoutIdAbsent(cart, product.id);
  }

  /** Putting an item of a fresh id in front of an id-distinct cart keeps it id-distinct. */
  lemma ConsDistinct(h: Item, tail: seq<Item>)
    requires DistinctIds(tail)
    requires forall x :: x in tail ==> x.id != h.id
    ensures DistinctIds([h] + tail)
  {
    var r := [h] + tail;
    forall i, j | 0 <= i < j < |r| ensures r[i].id != r[j].id {
      assert r[j] == tail[j - 1];
      if i == 0 {
        assert r[j] in tail;
      } else {
        assert r[i] == tail[i - 1];
      }
    }
  }

  /** Removing keeps ids distinct. */
  lemma {:induction false} WithoutIdDistinct(cart: seq<Item>, id: string)
    requires DistinctIds(cart)
    ensures DistinctIds(WithoutId(cart, id))
  {
    if cart != [] {
      var rest := cart[1..];
      assert DistinctIds(rest) by {
        forall i, j | 0 <= i < j < |rest| ensures rest[i].id != rest[j].id {
          assert rest[i] == cart[i + 1] && rest[j] == cart[j + 1];
        }
      }
      WithoutIdDistinct(rest, id);
      WithoutIdSpec(rest, id);
      var tail := WithoutId(rest, id);
      if cart[0].id != id {
        forall x | x in tail ensures x.id != cart[0].id {
          var m :| 0 <= m < |rest| && rest[m] == x;
          assert cart[m + 1] == x;
        }
        ConsDistinct(cart[0], tail);
      } else {
        assert WithoutId(cart, id) == tail;
      }
    }
  }

  /** Setting a quantity twice is the same as setting it once. */
  lemma WithQuantityIdempotent(cart: seq<Item>, id: string, q: int)
    ensures WithQuantity(WithQuantity(cart, id, q), id, q) == WithQuantity(cart, id, q)
  {
    var once := WithQuantity(cart, id, q);
    var twice := WithQuantity(once, id, q);
    assert forall i :: 0 <= i < |cart| ==> Ids(once)[i] == Ids(cart)[i];
    forall i | 0 <= i < |cart| ensures twice[i] == once[i] {
      if cart[i].id == id {
        assert once[i] == cart[i].(quantity := Some(q));
      }
    }
  }

  class CartStore {
    /** The signed-in user's uid, if any. */
    var user: Option<string>
    /** The cart held in memory. */
    var cart: seq<Item>
    /** The `carts/` subtree of the remote store: uid to cart document. */
    var store: map<string, seq<Item>>

    /** What a read of `carts/{uid}` yields: the document, or `[]` when there is none. */
    function Stored(uid: string): seq<Item>
      reads this
    {
      if uid in store then store[uid] else []
    }

    /** The remote document of the signed-in user equals the cart in memory. */
    predicate Synced()
      reads this
    {
      user.Some? ==> Stored(user.value) == cart
    }

    constructor (remote: map<string, seq<Item>>)
      ensures user == None && cart == [] && store == remote
    {
      user, cart, store := None, [], remote;
    }

    /**
     * The load effect, run when the signed-in user changes. With no user the
     * cart is emptied; otherwise the stored document (or `[]`) is committed once
     * the read succeeds. A failed read is not caught, so nothing is committed.
     */
    method Load(u: Option<string>, readOk: bool)
      modifies this
      ensures user == u && store == old(store)
      ensures u.None? ==> cart == []
      ensures u.Some? && readOk ==> cart == Stored(u.value)
      ensures u.Some? && !readOk ==> cart == old(cart)
      ensures readOk ==> Synced()
    {
      user := u;
      if u.None? {
        cart := [];
      } else if readOk {
        cart := Stored(u.value);
      }
    }

    /** `addToCart`: a duplicate id or a missing user is a no-op; otherwise write, then commit on success. */
    method Add(product: Item, writeOk: bool)
      modifies this
      ensures user == old(user)
      ensures user.None? || HasId(old(cart), product.id) ==> cart == old(cart) && store == old(store)
      ensures user.Some? && !HasId(old(cart), product.id) && writeOk ==>
                cart == old(cart) + [product] && store == old(store)[user.value := cart]
      ensures !writeOk ==> cart == old(cart) && store == old(store)
      ensures old(Synced()) ==> Synced()
      ensures old(DistinctIds(cart)) ==> DistinctIds(cart)
    {
      if user.None? {
        return;
      }
      if HasId(cart, product.id) {
        return;
      }
      var newCart := WithProduct(cart, product);
      if writeOk {
        store := store[user.value := newCart];
        cart := newCart;
      }
    }

    /** `removeFromCart`: write the filtered cart and commit it whether or not the write succeeds. */
    method Remove(id: string, writeOk: bool)
      modifies this
      ensures user == old(user)
      ensures user.None? ==> cart == old(cart) && store == old(store)
      ensures user.Some? ==> cart == WithoutId(old(cart), id)
      ensures user.Some? ==> store == if writeOk then old(store)[user.value := cart] else old(store)
      ensures writeOk ==> (old(Synced()) ==> Synced())
      ensures old(DistinctIds(cart)) ==> DistinctIds(cart)
    {
      if user.None? {
        return;
      }
      var newCart := WithoutId(cart, id);
      if writeOk {
        store := store[user.value := newCart];
      }
      if DistinctIds(cart) {
        WithoutIdDistinct(cart, id);
      }
      cart := newCart;
    }

    /** `updateCartQuantity`: the quantity is not clamped; commit only once the write succeeded. */
    method UpdateQuantity(id: string, q: int, writeOk: bool)
      modifies this
      ensures user == old(user)
      ensures user.None? || !writeOk ==> unchanged(this)
      ensures user.Some? && writeOk ==>
                cart == WithQuantity(old(cart), id, q) && store == old(store)[user.value := cart]
      ensures old(Synced()) ==> Synced()
      ensures Ids(cart) == Ids(old(cart))
    {
      if user.None? {
        return;
      }
      var newCart := WithQuantity(cart, id, q);
      WithQuantityKeepsIds(cart, id, q);
      if writeOk {
        store := store[user.value := newCart];
        cart := newCart;
      }
    }

    /** `emptyCart`: write `[]` and commit `[]` whatever the write does. */
    method Empty(writeOk: bool)
      modifies this
      ensures user == old(user)
      ensures user.None? ==> cart == old(cart) && store == old(store)
      ensures user.Some? ==> cart == []
      ensures user.Some? ==> store == if writeOk then old(store)[user.value := []] else old(store)
      ensures writeOk ==> Synced()
    {
      if user.None? {
        return;
      }
      if writeOk {
        store := store[user.value := []];
      }
      cart := [];
    }
  }
}
