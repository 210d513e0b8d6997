/**
  * The cache key scheme of ProductsController: one fixed key for the
  * product list and one key per product identifier.
  */
module CacheKeys {
  import opened Outcomes

  /** The key the product list is cached under. */
  const AllProductsKey: string := "all_products"

  /** What every per-product key starts with. */
  const ProductKeyPrefix: string := "product_"

  /** The key a single product is cached under. */
  function ProductKey(id: string): (k: string)
    ensures KeyId(k) == Some(id)
    ensures k != AllProductsKey
  {
    assert (ProductKeyPrefix + id)[..|ProductKeyPrefix|] == ProductKeyPrefix;
    assert (ProductKeyPrefix + id)[|ProductKeyPrefix|..] == id;
    assert (ProductKeyPrefix + id)[0] != AllProductsKey[0];
    ProductKeyPrefix + id
  }

  /** The identifier a per-product key names; None for every other key. */
  function KeyId(k: string): Option<string> {
    if |ProductKeyPrefix| <= |k| && k[..|ProductKeyPrefix|] == ProductKeyPrefix
    then Some(k[|ProductKeyPrefix|..])
    else None
  }

  /** A key names an identifier exactly when it is that identifier's key. */
  lemma KeyIdInverse(k: string, id: string)
    ensures KeyId(k) == Some(id) <==> k == ProductKey(id)
  {
  }

  /** Distinct identifiers have distinct keys. */
  lemma ProductKeyInjective(a: string, b: string)
    ensures ProductKey(a) == ProductKey(b) <==> a == b
  {
  }

  /** The list key names no identifier, so no per-product key can be it. */
  lemma AllProductsKeyNamesNoId()
    ensures KeyId(AllProductsKey) == None
  {
    assert AllProductsKey[..|ProductKeyPrefix|] != ProductKeyPrefix by {
      assert AllProductsKey[0] != ProductKeyPrefix[0];
    }
  }
}
