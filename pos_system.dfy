/** frontend/src/components/POSSystem.tsx: the product filter of the sales screen and the
    join of the cart lines with the product catalogue. React state and the queries that
    fetch both lists are not modelled: the lists and the two UI values are inputs. */
module PosSystem {
  import opened Wrappers
  import opened Text

  datatype Product = Product(id: int, name: string, price: real, category: string, image: string)

  /** A cart line as the API returns it; `product_id` is optional. */
  datatype CartItem = CartItem(id: int, productId: Option<int>, productName: string, quantity: real, unitPrice: real, cartId: int)

  /** A cart line with the product it refers to, when the catalogue has one. */
  datatype CartItemWithProduct = CartItemWithProduct(item: CartItem, product: Option<Product>)

  /** The filter callback: category `all` or equal, and the lower-cased name contains the
      lower-cased search term. */
  predicate ProductMatches(p: Product, activeCategory: string, searchTerm: string) {
    (activeCategory == "all" || p.category == activeCategory)
    && Contains(Lower(p.name), Lower(searchTerm))
  }

  /** `products.filter(...)` */
  function FilterProducts(products: seq<Product>, activeCategory: string, searchTerm: string): (r: seq<Product>)
    ensures |r| <= |products|
    ensures forall p :: p in r <==> p in products && ProductMatches(p, activeCategory, searchTerm)
    decreases |products|
  {
    if products == [] then []
    else if ProductMatches(products[0], activeCategory, searchTerm) then
      [products[0]] + FilterProducts(products[1..], activeCategory, searchTerm)
    else FilterProducts(products[1..], activeCategory, searchTerm)
  }

  /** The filter works piece by piece: the products kept from an earlier part of the
      catalogue come before those kept from a later part. */
  lemma {:induction false} FilterDistributes(a: seq<Product>, b: seq<Product>, activeCategory: string, searchTerm: string)
    ensures FilterProducts(a + b, activeCategory, searchTerm)
      == FilterProducts(a, activeCategory, searchTerm) + FilterProducts(b, activeCategory, searchTerm)
    decreases |a|
  {
    if a == [] {
      assert [] + b == b;
    } else {
      assert (a + b)[1..] == a[1..] + b;
      FilterDistributes(a[1..], b, activeCategory, searchTerm);
    }
  }

  /** The empty search term is contained in every name. */
  lemma EmptyTermMatchesAll(name: string)
    ensures Contains(Lower(name), Lower(""))
  {
    assert Lower("") == "";
    assert OccursAt(Lower(name), "", 0);
  }

  /** Category `all` with an empty search keeps the whole catalogue. */
  lemma {:induction false} DefaultFilterKeepsAll(products: seq<Product>)
    ensures FilterProducts(products, "all", "") == products
    decreases |products|
  {
    if products != [] {
      EmptyTermMatchesAll(products[0].name);
      DefaultFilterKeepsAll(products[1..]);
      assert [products[0]] + products[1..] == products;
    }
  }

  /** The letter case of the search term plays no part in the filter. */
  lemma SearchIgnoresCase(products: seq<Product>, activeCategory: string, searchTerm: string)
    ensures FilterProducts(products, activeCategory, Lower(searchTerm)) == FilterProducts(products, activeCategory, searchTerm)
  {
    LowerIdempotent(searchTerm);
  }

  /** Accented capitals are lower-cased too: `AZÚCAR` is found by `azúcar`. */
  lemma AccentedNameMatches(p: Product)
    requires p.name == "AZÚCAR"
    ensures FilterProducts([p], "all", "azúcar") == [p]
  {
    assert Lower(p.name) == "azúcar";
    assert OccursAt(Lower(p.name), Lower("azúcar"), 0);
  }

  /** `products.find(p => p.id === item.product_id)`: the first product with that id; an
      absent `product_id` matches nothing. */
  function FindProduct(products: seq<Product>, productId: Option<int>): (r: Option<Product>)
    ensures r.None? <==> forall i :: 0 <= i < |products| ==> Some(products[i].id) != productId
    ensures r.Some? ==> Some(r.value.id) == productId
    ensures r.Some? ==> exists k :: (0 <= k < |products| && products[k] == r.value
                                     && forall j :: 0 <= j < k ==> Some(products[j].id) != productId)
    decreases |products|
  {
    if products == [] then None
    else if Some(products[0].id) == productId then Some(products[0])
    else
      var r := FindProduct(products[1..], productId);
      if r.Some? then
        var k :| (0 <= k < |products[1..]| && products[1..][k] == r.value
                  && forall j :: 0 <= j < k ==> Some(products[1..][j].id) != productId);
        assert products[k + 1] == r.value;
        r
      else r
  }

  /** `cartItemsWithProducts`: one entry per cart line, in cart order, each line
      unchanged and paired with its product. */
  function JoinCart(cartItems: seq<CartItem>, products: seq<Product>): (r: seq<CartItemWithProduct>)
    ensures |r| == |cartItems|
    ensures forall i :: 0 <= i < |r| ==> r[i].item == cartItems[i]
    ensures forall i :: 0 <= i < |r| ==> r[i].product == FindProduct(products, cartItems[i].productId)
  {
    seq(|cartItems|, i requires 0 <= i < |cartItems| => CartItemWithProduct(cartItems[i], FindProduct(products, cartItems[i].productId)))
  }

  /** A line without `product_id` is joined with no product. */
  lemma UnlinkedLineHasNoProduct(cartItems: seq<CartItem>, products: seq<Product>, i: int)
    requires 0 <= i < |cartItems| && cartItems[i].productId.None?
    ensures JoinCart(cartItems, products)[i].product.None?
  {
  }
}
