/** frontend/src/services/imageService.ts: the browser's copy of the product-image rule.
    JavaScript's `%` truncates toward zero, so for negative ids it differs from the server. */
module ClientImages {
  import opened Wrappers
  import opened ImageService

  /** `getProductImage(productId)` */
  function GetProductImage(productId: int): (path: string)
    ensures productId >= 0 ==> path == GetImageForProduct(productId)
    ensures productId >= 0 ==> IsProductImage(path)
  {
    ImagePath(TruncRem(productId, TotalImages) + 1)
  }

  /** `getCartItemImage(itemId, productId)`: an absent `productId`, and a `productId` of 0
      (falsy in JavaScript), fall back to the item's own id. */
  function GetCartItemImage(itemId: int, productId: Option<int>): (path: string)
    ensures productId.Some? && productId.value != 0 ==> path == GetProductImage(productId.value)
    ensures productId.None? || productId.value == 0 ==> path == GetProductImage(itemId)
  {
    if productId.Some? && productId.value != 0 then GetProductImage(productId.value)
    else ImagePath(TruncRem(itemId, TotalImages) + 1)
  }

  /** A negative id that is not a multiple of 15 gets a path that is none of the fifteen
      images (such as `/images/products/-3.png`), where the server would give a real one. */
  lemma NegativeIdsMissTheImages(productId: int)
    requires productId < 0 && productId % TotalImages != 0
    ensures !IsProductImage(GetProductImage(productId))
    ensures GetProductImage(productId) != GetImageForProduct(productId)
  {
    var m := TruncRem(productId, TotalImages) + 1;
    assert m <= 0;
    if IsProductImage(GetProductImage(productId)) {
      var n :| 1 <= n <= TotalImages && GetProductImage(productId) == ImagePath(n);
      ImagePathInjective(m, n);
    }
  }

  /** A cart item with a product id of 0 shows the picture of its own id, not of product 0. */
  lemma ZeroProductIdFallsBack(itemId: int)
    ensures GetCartItemImage(itemId, Some(0)) == GetCartItemImage(itemId, None)
  {
  }
}
