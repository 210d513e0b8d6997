/**
  * The cache-aside protocol of ProductsController, stated on values: each
  * request handler is a step from one (cache, store) state to the next,
  * together with the value the handler returns. Each handler is atomic.
  *
  * `Coherent` is the invariant the protocol exists for: every truthy cache
  * entry under the list key or a per-product key agrees with the store.
  * Every step and every expiry keeps it.
  */
module CacheAside {
  import opened Outcomes
  import opened Products
  import opened CacheKeys

  /** A value held by the cache: one product, a product list, or a falsy value (null or undefined stored under a key). */
  datatype CacheVal = One(product: Product) | Many(products: seq<Product>) | Nil

  /** JavaScript truthiness of a cached value. */
  predicate Truthy(v: CacheVal) {
    !v.Nil?
  }

  /** `cacheManager.get(key)` followed by the truthiness test: present and truthy. */
  predicate IsHit(cache: map<string, CacheVal>, key: string) {
    key in cache && Truthy(cache[key])
  }

  /** `cache` and `cache'` hold the same entry (or none) under `key`. */
  ghost predicate SameEntry(cache: map<string, CacheVal>, cache': map<string, CacheVal>, key: string) {
    (key in cache <==> key in cache') && (key in cache ==> cache[key] == cache'[key])
  }

  /** The shared state a handler works on: the cache entries and the store's records. */
  datatype State = State(cache: map<string, CacheVal>, store: seq<Product>)

  /** The state after a handler and the value it returns. */
  datatype Step<T> = Step(after: State, out: T)

  /** POST: the store creates the record, then the list key is invalidated. */
  function Create(s: State, dto: NewProduct): (r: Step<Product>)
    ensures Find(s.store, r.out.id) == None
    ensures r.out.name == dto.name && r.out.description == dto.description && r.out.price == dto.price
    ensures r.after.store == s.store + [r.out]
    ensures AllProductsKey !in r.after.cache
    ensures forall k | k != AllProductsKey :: SameEntry(s.cache, r.after.cache, k)
  {
    var product := Created(s.store, dto);
    Step(State(s.cache - {AllProductsKey}, s.store + [product]), product)
  }

  /** GET :id: a truthy cached value is returned as is; otherwise the store is asked and its answer cached. */
  function FindOne(s: State, id: string): (r: Step<Result<CacheVal>>)
    ensures r.after.store == s.store
    ensures IsHit(s.cache, ProductKey(id)) ==> r.after == s && r.out == Ok(s.cache[ProductKey(id)])
    ensures !IsHit(s.cache, ProductKey(id)) ==>
      && (r.out.Ok? <==> Find(s.store, id).Some?)
      && (r.out.Ok? ==> r.out.value == One(Find(s.store, id).value)
                        && r.after.cache == s.cache[ProductKey(id) := r.out.value])
      && (r.out.Err? ==> r.out.error == NotFound && r.after == s)
  {
    var cacheKey := ProductKey(id);
    if IsHit(s.cache, cacheKey) then Step(s, Ok(s.cache[cacheKey]))
    else
      match Find(s.store, id)
      case None => Step(s, Err(NotFound))
      case Some(product) => Step(State(s.cache[cacheKey := One(product)], s.store), Ok(One(product)))
  }

  /** `del('all_products')` followed by `del(product_<id>)`. */
  function Invalidate(cache: map<string, CacheVal>, id: string): (c: map<string, CacheVal>)
    ensures AllProductsKey !in c && ProductKey(id) !in c
    ensures forall k | k != AllProductsKey && k != ProductKey(id) :: SameEntry(cache, c, k)
  {
    cache - {AllProductsKey} - {ProductKey(id)}
  }

  /** PUT :id: the store updates the record; only if that succeeds are both keys invalidated. */
  function Update(s: State, id: string, patch: ProductPatch): (r: Step<Result<Product>>)
    ensures r.out.Ok? <==> Find(s.store, id).Some?
    ensures r.out.Err? ==> r.out.error == NotFound && r.after == s
    ensures r.out.Ok? ==>
      && r.out.value == ApplyPatch(Find(s.store, id).value, patch)
      && r.after.store == Patched(s.store, id, patch)
      && AllProductsKey !in r.after.cache
      && ProductKey(id) !in r.after.cache
    ensures forall k | k != AllProductsKey && k != ProductKey(id) :: SameEntry(s.cache, r.after.cache, k)
  {
    match Find(s.store, id)
    case None => Step(s, Err(NotFound))
    case Some(current) =>
      Step(State(Invalidate(s.cache, id), Patched(s.store, id, patch)), Ok(ApplyPatch(current, patch)))
  }

  /** DELETE :id: the store deletes the record; only if that succeeds are both keys invalidated. */
  function Remove(s: State, id: string): (r: Step<Result<Product>>)
    ensures r.out.Ok? <==> Find(s.store, id).Some?
    ensures r.out.Err? ==> r.out.error == NotFound && r.after == s
    ensures r.out.Ok? ==>
      && r.out.value == Find(s.store, id).value
      && r.after.store == Without(s.store, id)
      && AllProductsKey !in r.after.cache
      && ProductKey(id) !in r.after.cache
    ensures forall k | k != AllProductsKey && k != ProductKey(id) :: SameEntry(s.cache, r.after.cache, k)
  {
    match Find(s.store, id)
    case None => Step(s, Err(NotFound))
    case Some(removed) =>
      Step(State(Invalidate(s.cache, id), Without(s.store, id)), Ok(removed))
  }

  /**
    * GET with the list key, as the response cache in front of findAll is
    * assumed to behave: a present, non-null value under `all_products` is
    * returned as is; otherwise the store's listing is returned and cached.
    */
  function FindAllThroughInterceptor(s: State): (r: Step<CacheVal>)
    ensures r.after.store == s.store
    ensures IsHit(s.cache, AllProductsKey) ==> r.after == s && r.out == s.cache[AllProductsKey]
    ensures !IsHit(s.cache, AllProductsKey) ==>
      r.out == Many(s.store) && r.after.cache == s.cache[AllProductsKey := r.out]
  {
    if IsHit(s.cache, AllProductsKey) then Step(s, s.cache[AllProductsKey])
    else Step(State(s.cache[AllProductsKey := Many(s.store)], s.store), Many(s.store))
  }

  /** The cache backend drops `key` (TTL expiry or capacity eviction). */
  function Expire(s: State, key: string): (s': State)
    ensures s'.store == s.store
    ensures key !in s'.cache
    ensures forall k | k != key :: SameEntry(s.cache, s'.cache, k)
  {
    State(s.cache - {key}, s.store)
  }

  /** Every truthy entry under the list key or a per-product key agrees with the store. */
  ghost predicate Coherent(s: State) {
    && (IsHit(s.cache, AllProductsKey) ==> s.cache[AllProductsKey] == Many(s.store))
    && forall id | IsHit(s.cache, ProductKey(id)) ::
         Find(s.store, id).Some? && s.cache[ProductKey(id)] == One(Find(s.store, id).value)
  }

  lemma CreateKeepsCoherent(s: State, dto: NewProduct)
    requires Coherent(s)
    ensures Coherent(Create(s, dto).after)
  {
    var r := Create(s, dto);
    forall id | IsHit(r.after.cache, ProductKey(id))
      ensures Find(r.after.store, id).Some? && r.after.cache[ProductKey(id)] == One(Find(r.after.store, id).value)
    {
      assert SameEntry(s.cache, r.after.cache, ProductKey(id));
      FindAppend(s.store, r.out, id);
    }
  }

  lemma FindOneKeepsCoherent(s: State, id: string)
    requires Coherent(s)
    ensures Coherent(FindOne(s, id).after)
  {
  }

  lemma UpdateKeepsCoherent(s: State, id: string, patch: ProductPatch)
    requires Coherent(s)
    ensures Coherent(Update(s, id, patch).after)
  {
  }

  lemma RemoveKeepsCoherent(s: State, id: string)
    requires Coherent(s)
    ensures Coherent(Remove(s, id).after)
  {
  }

  lemma FindAllThroughInterceptorKeepsCoherent(s: State)
    requires Coherent(s)
    ensures Coherent(FindAllThroughInterceptor(s).after)
  {
  }

  lemma ExpireKeepsCoherent(s: State, key: string)
    requires Coherent(s)
    ensures Coherent(Expire(s, key))
  {
  }
}
