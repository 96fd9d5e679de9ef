/**
 * The product catalogue (store/productStore.ts). The seed list comes from
 * data/products, which is not part of this model, so the constructor takes it
 * as a parameter; the clock reading that becomes a new product's id is a
 * parameter of AddProduct.
 */
module Catalogue {
  import opened Wrappers
  import opened Types
  import opened JsArray
  import opened JsString

  /**
   * A `Partial<Product>`: each present field overrides the stored one in
   * `{ ...product, ...productData }`. The id itself may be patched.
   */
  datatype ProductPatch = ProductPatch(
    id: Option<string>,
    name: Option<string>,
    price: Option<int>,
    originalPrice: Option<Option<int>>,
    description: Option<string>,
    images: Option<seq<string>>,
    category: Option<string>,
    sizes: Option<seq<string>>,
    colors: Option<seq<string>>,
    stock: Option<int>,
    rating: Option<int>,
    reviewCount: Option<int>,
    featured: Option<Option<bool>>)

  const EmptyPatch := ProductPatch(None, None, None, None, None, None, None, None, None, None, None, None, None)

  /** The object spread: a field comes from the patch when the patch has it. */
  function ApplyPatch(p: Product, patch: ProductPatch): (r: Product)
    ensures patch.id.Some? ==> r.id == patch.id.value
    ensures patch.id.None? ==> r.id == p.id
    ensures patch.name.Some? ==> r.name == patch.name.value
    ensures patch.name.None? ==> r.name == p.name
    ensures patch.price.Some? ==> r.price == patch.price.value
    ensures patch.price.None? ==> r.price == p.price
    ensures patch.originalPrice.Some? ==> r.originalPrice == patch.originalPrice.value
    ensures patch.originalPrice.None? ==> r.originalPrice == p.originalPrice
    ensures patch.description.Some? ==> r.description == patch.description.value
    ensures patch.description.None? ==> r.description == p.description
    ensures patch.images.Some? ==> r.images == patch.images.value
    ensures patch.images.None? ==> r.images == p.images
    ensures patch.category.Some? ==> r.category == patch.category.value
    ensures patch.category.None? ==> r.category == p.category
    ensures patch.sizes.Some? ==> r.sizes == patch.sizes.value
    ensures patch.sizes.None? ==> r.sizes == p.sizes
    ensures patch.colors.Some? ==> r.colors == patch.colors.value
    ensures patch.colors.None? ==> r.colors == p.colors
    ensures patch.stock.Some? ==> r.stock == patch.stock.value
    ensures patch.stock.None? ==> r.stock == p.stock
    ensures patch.rating.Some? ==> r.rating == patch.rating.value
    ensures patch.rating.None? ==> r.rating == p.rating
    ensures patch.reviewCount.Some? ==> r.reviewCount == patch.reviewCount.value
    ensures patch.reviewCount.None? ==> r.reviewCount == p.reviewCount
    ensures patch.featured.Some? ==> r.featured == patch.featured.value
    ensures patch.featured.None? ==> r.featured == p.featured
  {
    Product(
      id := patch.id.GetOr(p.id),
      name := patch.name.GetOr(p.name),
      price := patch.price.GetOr(p.price),
      originalPrice := patch.originalPrice.GetOr(p.originalPrice),
      description := patch.description.GetOr(p.description),
      images := patch.images.GetOr(p.images),
      category := patch.category.GetOr(p.category),
      sizes := patch.sizes.GetOr(p.sizes),
      colors := patch.colors.GetOr(p.colors),
      stock := patch.stock.GetOr(p.stock),
      rating := patch.rating.GetOr(p.rating),
      reviewCount := patch.reviewCount.GetOr(p.reviewCount),
      featured := patch.featured.GetOr(p.featured))
  }

  /** An empty patch leaves the product as it was. */
  lemma ApplyEmptyPatch(p: Product)
    ensures ApplyPatch(p, EmptyPatch) == p
  {
  }

  /** Applying the same patch twice is applying it once. */
  lemma ApplyPatchIdempotent(p: Product, patch: ProductPatch)
    ensures ApplyPatch(ApplyPatch(p, patch), patch) == ApplyPatch(p, patch)
  {
  }

  /** The `map` of updateProduct: every product with the id is patched. */
  function PatchProducts(products: seq<Product>, id: string, patch: ProductPatch): (r: seq<Product>)
    ensures |r| == |products|
    ensures forall i :: 0 <= i < |products| ==>
      r[i] == if products[i].id == id then ApplyPatch(products[i], patch) else products[i]
  {
    seq(|products|, i requires 0 <= i < |products| =>
      if products[i].id == id then ApplyPatch(products[i], patch) else products[i])
  }

  /** Updating an id the catalogue does not hold changes nothing. */
  lemma PatchUnknownIdIsNoOp(products: seq<Product>, id: string, patch: ProductPatch)
    requires forall i :: 0 <= i < |products| ==> products[i].id != id
    ensures PatchProducts(products, id, patch) == products
  {
  }

  /** `products.filter(product => product.id !== id)`. */
  function RemoveProduct(products: seq<Product>, id: string): (r: seq<Product>)
    ensures forall p :: p in r <==> p in products && p.id != id
    ensures forall p :: multiset(r)[p] == if p.id != id then multiset(products)[p] else 0
    ensures IsSubsequence(r, products)
  {
    var keep := (p: Product) => p.id != id;
    FilterContents(products, keep);
    FilterSubsequence(products, keep);
    Filter(products, keep)
  }

  /** `products.find(product => product.id === id)`. */
  function FindProduct(products: seq<Product>, id: string): (r: Option<Product>)
    ensures r.None? <==> forall i :: 0 <= i < |products| ==> products[i].id != id
    ensures r.Some? ==> exists i :: 0 <= i < |products| && products[i] == r.value && r.value.id == id
                                    && forall j :: 0 <= j < i ==> products[j].id != id
  {
    Find(products, (p: Product) => p.id == id)
  }

  /** After deleteProduct(id), getProduct(id) finds nothing. */
  lemma DeletedProductIsGone(products: seq<Product>, id: string)
    ensures FindProduct(RemoveProduct(products, id), id).None?
  {
    var r := RemoveProduct(products, id);
    forall i | 0 <= i < |r| ensures r[i].id != id {
      assert r[i] in r;
    }
  }

  /** Deleting one id keeps every product with another id findable. */
  lemma DeleteKeepsOthers(products: seq<Product>, id: string, other: string)
    requires id != other
    ensures FindProduct(RemoveProduct(products, id), other).Some? <==> FindProduct(products, other).Some?
  {
    var r := RemoveProduct(products, id);
    if FindProduct(products, other).Some? {
      var p := FindProduct(products, other).value;
      assert p in r;
      var j :| 0 <= j < |r| && r[j] == p;
      assert r[j].id == other;
    }
  }

  /**
   * Once updateProduct has given a product an id another product already has,
   * getProduct only ever finds the earlier of the two.
   */
  lemma PatchingIdCanShadow(a: Product, b: Product)
    requires a.id != b.id
    ensures var patched := PatchProducts([a, b], b.id, EmptyPatch.(id := Some(a.id)));
      FindProduct(patched, a.id) == Some(a) && FindProduct(patched, b.id).None?
  {
    var patched := PatchProducts([a, b], b.id, EmptyPatch.(id := Some(a.id)));
    assert patched[0] == a;
  }

  class ProductStore {
    var products: seq<Product>

    constructor(initialProducts: seq<Product>)
      ensures products == initialProducts
    {
      products := initialProducts;
    }

    /** addProduct: the given data, with the id taken from the clock, appended. */
    method AddProduct(productData: Product, now: nat)
      modifies this
      ensures products == old(products) + [productData.(id := DecimalString(now))]
    {
      var newProduct := productData.(id := DecimalString(now));
      products := products + [newProduct];
    }

    method UpdateProduct(id: string, productData: ProductPatch)
      modifies this
      ensures products == PatchProducts(old(products), id, productData)
    {
      products := PatchProducts(products, id, productData);
    }

    method DeleteProduct(id: string)
      modifies this
      ensures products == RemoveProduct(old(products), id)
      ensures GetProduct(id).None?
    {
      DeletedProductIsGone(products, id);
      products := RemoveProduct(products, id);
    }

    function GetProduct(id: string): Option<Product>
      reads this
    {
      FindProduct(products, id)
    }
  }
}
