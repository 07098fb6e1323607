/** frontend/src/store/posStore.ts: the client store of the point of sale, its UI state
    and cart, with the actions that replace one field each. */
module PosStore {
  import opened Wrappers

  /** A cart line as the store keeps it. */
  datatype CartItem = CartItem(id: int, productId: int, quantity: real, unitPrice: real)

  /** The cart without the items whose id is `itemId`: `filter(item => item.id !== itemId)`. */
  function WithoutId(items: seq<CartItem>, itemId: int): (r: seq<CartItem>)
    ensures |r| <= |items|
    ensures forall i :: 0 <= i < |r| ==> r[i].id != itemId
    ensures forall x :: x in r <==> x in items && x.id != itemId
    decreases |items|
  {
    if items == [] then []
    else if items[0].id != itemId then [items[0]] + WithoutId(items[1..], itemId)
    else WithoutId(items[1..], itemId)
  }

  /** Removal works piece by piece, so the kept items stay in their original order. */
  lemma {:induction false} WithoutIdDistributes(a: seq<CartItem>, b: seq<CartItem>, itemId: int)
    ensures WithoutId(a + b, itemId) == WithoutId(a, itemId) + WithoutId(b, itemId)
    decreases |a|
  {
    if a == [] {
      assert [] + b == b;
    } else {
      assert (a + b)[1..] == a[1..] + b;
      WithoutIdDistributes(a[1..], b, itemId);
    }
  }

  /** A cart without the id is left as it is. */
  lemma {:induction false} WithoutAbsentId(items: seq<CartItem>, itemId: int)
    requires forall i :: 0 <= i < |items| ==> items[i].id != itemId
    ensures WithoutId(items, itemId) == items
    decreases |items|
  {
    if items != [] {
      WithoutAbsentId(items[1..], itemId);
      assert [items[0]] + items[1..] == items;
    }
  }

  /** Removing twice is removing once. */
  lemma WithoutIdIdempotent(items: seq<CartItem>, itemId: int)
    ensures WithoutId(WithoutId(items, itemId), itemId) == WithoutId(items, itemId)
  {
    WithoutAbsentId(WithoutId(items, itemId), itemId);
  }

  /** The part of the state the `persist` middleware writes to storage (`partialize`). */
  datatype Persisted = Persisted(cartItems: seq<CartItem>)

  /** The store created by `createPOSStore`. */
  class Store {
    var paymentInProgress: bool
    var connectionError: Option<string>
    var activeCategory: string
    var searchTerm: string
    var cartItems: seq<CartItem>

    /** The initial state, with the cart the `persist` middleware rehydrates from the
        `pos-storage` entry when one was `stored`. */
    constructor (stored: Option<Persisted>)
      ensures !paymentInProgress && connectionError == None
      ensures activeCategory == "all" && searchTerm == ""
      ensures cartItems == if stored.Some? then stored.value.cartItems else []
    {
      paymentInProgress := false;
      connectionError := None;
      activeCategory := "all";
      searchTerm := "";
      cartItems := [];
      if stored.Some? {
        cartItems := stored.value.cartItems;
      }
    }

    /** `partialize`: only the cart is persisted. */
    function Partialize(): (p: Persisted)
      reads this
      ensures p.cartItems == cartItems
    {
      Persisted(cartItems)
    }

    method SetPaymentInProgress(status: bool)
      modifies this
      ensures paymentInProgress == status
      ensures connectionError == old(connectionError) && activeCategory == old(activeCategory)
      ensures searchTerm == old(searchTerm) && cartItems == old(cartItems)
    {
      paymentInProgress := status;
    }

    method SetConnectionError(error: Option<string>)
      modifies this
      ensures connectionError == error
      ensures paymentInProgress == old(paymentInProgress) && activeCategory == old(activeCategory)
      ensures searchTerm == old(searchTerm) && cartItems == old(cartItems)
    {
      connectionError := error;
    }

    method SetActiveCategory(category: string)
      modifies this
      ensures activeCategory == category
      ensures paymentInProgress == old(paymentInProgress) && connectionError == old(connectionError)
      ensures searchTerm == old(searchTerm) && cartItems == old(cartItems)
    {
      activeCategory := category;
    }

    method SetSearchTerm(term: string)
      modifies this
      ensures searchTerm == term
      ensures paymentInProgress == old(paymentInProgress) && connectionError == old(connectionError)
      ensures activeCategory == old(activeCategory) && cartItems == old(cartItems)
    {
      searchTerm := term;
    }

    /** `addToCart`: the item goes at the end, also when an equal item is already there. */
    method AddToCart(item: CartItem)
      modifies this
      ensures cartItems == old(cartItems) + [item]
      ensures paymentInProgress == old(paymentInProgress) && connectionError == old(connectionError)
      ensures activeCategory == old(activeCategory) && searchTerm == old(searchTerm)
    {
      cartItems := cartItems + [item];
    }

    /** `removeFromCart`: every item with the id goes, the others keep their order, as
        `WithoutId` specifies. */
    method RemoveFromCart(itemId: int)
      modifies this
      ensures cartItems == WithoutId(old(cartItems), itemId)
      ensures paymentInProgress == old(paymentInProgress) && connectionError == old(connectionError)
      ensures activeCategory == old(activeCategory) && searchTerm == old(searchTerm)
    {
      cartItems := WithoutId(cartItems, itemId);
    }

    method ClearCart()
      modifies this
      ensures cartItems == []
      ensures paymentInProgress == old(paymentInProgress) && connectionError == old(connectionError)
      ensures activeCategory == old(activeCategory) && searchTerm == old(searchTerm)
    {
      cartItems := [];
    }
  }

  /** Adding an item and removing its id removes every copy of it, the new one included. */
  lemma AddThenRemove(items: seq<CartItem>, item: CartItem)
    ensures WithoutId(items + [item], item.id) == WithoutId(items, item.id)
  {
    WithoutIdDistributes(items, [item], item.id);
    assert WithoutId([item], item.id) == [];
    assert WithoutId(items, item.id) + [] == WithoutId(items, item.id);
  }

  /** Adding an item with a fresh id and removing it restores the cart. */
  lemma AddFreshThenRemove(items: seq<CartItem>, item: CartItem)
    requires forall i :: 0 <= i < |items| ==> items[i].id != item.id
    ensures WithoutId(items + [item], item.id) == items
  {
    AddThenRemove(items, item);
    WithoutAbsentId(items, item.id);
  }
}
