/** server/server/services/image_service.py: the product picture shown for a product id,
    one of fifteen numbered images. */
module ImageService {
  import opened Text

  const TotalImages: int := 15

  /** `f"/images/products/{n}.png"` */
  function ImagePath(n: int): (r: string)
    ensures |r| > 21 && r[..17] == "/images/products/" && r[|r| - 4..] == ".png"
  {
    "/images/products/" + IntToString(n) + ".png"
  }

  /** `path` names one of the fifteen stock product images. */
  predicate IsProductImage(path: string) {
    exists n :: 1 <= n <= TotalImages && path == ImagePath(n)
  }

  /** Different image numbers give different paths. */
  lemma ImagePathInjective(m: int, n: int)
    requires ImagePath(m) == ImagePath(n)
    ensures m == n
  {
    var p := "/images/products/";
    var a, b := IntToString(m), IntToString(n);
    assert ImagePath(m)[|p|..|ImagePath(m)| - 4] == a;
    assert ImagePath(n)[|p|..|ImagePath(n)| - 4] == b;
    IntToStringInjective(m, n);
  }

  /** `get_random_product_image`, given the number `random.randint(1, 15)` drew. */
  function GetRandomProductImage(draw: int): (path: string)
    requires 1 <= draw <= TotalImages
    ensures IsProductImage(path)
  {
    ImagePath(draw)
  }

  /** `get_image_for_product`: Python's `%` with a positive divisor is never negative,
      like Dafny's, so every id, negative ones included, gets one of the fifteen images. */
  function GetImageForProduct(productId: int): (path: string)
    ensures IsProductImage(path)
  {
    ImagePath(productId % TotalImages + 1)
  }

  /** Two ids share a picture exactly when they are congruent modulo 15. */
  lemma SameImageIffCongruent(a: int, b: int)
    ensures GetImageForProduct(a) == GetImageForProduct(b) <==> a % TotalImages == b % TotalImages
  {
    if GetImageForProduct(a) == GetImageForProduct(b) {
      ImagePathInjective(a % TotalImages + 1, b % TotalImages + 1);
    }
  }

  /** The picture repeats every fifteen ids. */
  lemma ImageCycle(id: int)
    ensures GetImageForProduct(id + TotalImages) == GetImageForProduct(id)
  {
    assert (id + TotalImages) % TotalImages == id % TotalImages;
  }

  /** The quotient of truncating division: rounded toward zero. */
  function TruncQuot(a: int, b: int): int
    requires b > 0
  {
    if a >= 0 then a / b else -((-a) / b)
  }

  /** The remainder of SQL's `%` (and JavaScript's): truncating division, so the result
      takes the sign of the dividend. */
  function TruncRem(a: int, b: int): (r: int)
    requires b > 0
    ensures -b < r < b
    ensures a >= 0 ==> 0 <= r
    ensures a <= 0 ==> r <= 0
    ensures a == TruncQuot(a, b) * b + r
  {
    if a >= 0 then a % b else -((-a) % b)
  }

  /** Truncating and Euclidean remainders agree on non-negative dividends. */
  lemma TruncRemAgrees(a: int, b: int)
    requires a >= 0 && b > 0
    ensures TruncRem(a, b) == a % b
  {
  }

  /** The migration that added the `image` column gave image `i` to the rows with
      `id % 15 = i - 1`; that is the image `get_image_for_product` computes for the row. */
  lemma MigrationAgrees(id: int, i: int)
    requires 1 <= i <= TotalImages && TruncRem(id, TotalImages) == i - 1
    ensures GetImageForProduct(id) == ImagePath(i)
  {
    if id < 0 {
      var q := (-id) / TotalImages;
      assert id == -q * TotalImages + (i - 1);
    }
  }
}
