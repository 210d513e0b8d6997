/**
  * ProductsController and the two objects it is constructed with: the
  * cache manager (a key/value cache changed in place by get/set/del) and
  * the products service (the store of product records). Every handler is
  * proved to do what the matching step of CacheAside specifies, and to
  * keep the cache coherent with the store.
  */
module Controller {
  import opened Outcomes
  import opened Products
  import opened CacheKeys
  import opened CacheAside

  /** The cache the controller is given; entries change in place. */
  class CacheManager {
    var entries: map<string, CacheVal>

    constructor (entries: map<string, CacheVal>)
      ensures this.entries == entries
    {
      this.entries := entries;
    }

    /** `get(key)`: the stored value, or None (undefined) for a key with no entry. */
    method Get(key: string) returns (v: Option<CacheVal>)
      ensures v.Some? <==> key in entries
      ensures v.Some? ==> v.value == entries[key]
    {
      v := if key in entries then Some(entries[key]) else None;
    }

    /** `set(key, value)` */
    method Set(key: string, value: CacheVal)
      modifies this
      ensures entries == old(entries)[key := value]
    {
      entries := entries[key := value];
    }

    /** `del(key)` */
    method Del(key: string)
      modifies this
      ensures entries == old(entries) - {key}
    {
      entries := entries - {key};
    }
  }

  /** The products service: delegates to the store, caches nothing. */
  class ProductsService {
    var records: seq<Product>

    ghost predicate Valid()
      reads this
    {
      UniqueIds(records)
    }

    constructor (records: seq<Product>)
      requires UniqueIds(records)
      ensures Valid() && this.records == records
    {
      this.records := records;
    }

    method Create(dto: NewProduct) returns (product: Product)
      requires Valid()
      modifies this
      ensures Valid()
      ensures Find(old(records), product.id) == None
      ensures product == Created(old(records), dto)
      ensures records == old(records) + [product]
    {
      product := Created(records, dto);
      AppendKeepsUniqueIds(records, product);
      records := records + [product];
    }

    /** The listing of every record, in store order. */
    method FindAll() returns (products: seq<Product>)
      ensures products == records
    {
      products := records;
    }

    /** The record with identifier `id`, or NotFound. */
    method FindOne(id: string) returns (r: Result<Product>)
      ensures r.Ok? <==> exists p :: p in records && p.id == id
      ensures r.Ok? ==> r.value in records && r.value.id == id
      ensures r.Err? ==> r.error == NotFound
    {
      match Find(records, id)
      case None => r := Err(NotFound);
      case Some(p) => r := Ok(p);
    }

    method Update(id: string, patch: ProductPatch) returns (r: Result<Product>)
      requires Valid()
      modifies this
      ensures Valid()
      ensures r.Ok? <==> Find(old(records), id).Some?
      ensures r.Ok? ==> r.value == ApplyPatch(Find(old(records), id).value, patch) && records == Patched(old(records), id, patch)
      ensures r.Err? ==> r.error == NotFound && records == old(records)
    {
      match Find(records, id)
      case None => r := Err(NotFound);
      case Some(p) =>
        PatchedKeepsUniqueIds(records, id, patch);
        records := Patched(records, id, patch);
        r := Ok(ApplyPatch(p, patch));
    }

    method Remove(id: string) returns (r: Result<Product>)
      requires Valid()
      modifies this
      ensures Valid()
      ensures r.Ok? <==> Find(old(records), id).Some?
      ensures r.Ok? ==> r.value == Find(old(records), id).value && records == Without(old(records), id)
      ensures r.Err? ==> r.error == NotFound && records == old(records)
    {
      match Find(records, id)
      case None => r := Err(NotFound);
      case Some(p) =>
        records := Without(records, id);
        r := Ok(p);
    }
  }

  class ProductsController {
    const productsService: ProductsService
    const cacheManager: CacheManager

    /** The cache entries and store records as one value. */
    ghost function Snapshot(): State
      reads productsService, cacheManager
    {
      State(cacheManager.entries, productsService.records)
    }

    /** Identifiers are unique and every truthy cache entry agrees with the store. */
    ghost predicate Valid()
      reads productsService, cacheManager
    {
      productsService.Valid() && Coherent(Snapshot())
    }

    constructor (productsService: ProductsService, cacheManager: CacheManager)
      requires productsService.Valid()
      requires Coherent(State(cacheManager.entries, productsService.records))
      ensures this.productsService == productsService && this.cacheManager == cacheManager
      ensures Valid()
    {
      this.productsService := productsService;
      this.cacheManager := cacheManager;
    }

    method Create(dto: NewProduct) returns (product: Product)
      requires Valid()
      modifies productsService, cacheManager
      ensures Valid()
      ensures Step(Snapshot(), product) == CacheAside.Create(old(Snapshot()), dto)
    {
      ghost var s0 := Snapshot();
      product := productsService.Create(dto);
      cacheManager.Del(AllProductsKey);
      CreateKeepsCoherent(s0, dto);
    }

    /** The handler body of GET: the store's listing; the cache is not read here. */
    method FindAll() returns (products: seq<Product>)
      ensures products == productsService.records
    {
      products := productsService.FindAll();
    }

    /**
      * GET with the list key as served through the response cache in front
      * of FindAll (an assumption about that cache, whose code is not part
      * of this model).
      */
    method FindAllThroughInterceptor() returns (v: CacheVal)
      requires Valid()
      modifies cacheManager
      ensures Valid()
      ensures Step(Snapshot(), v) == CacheAside.FindAllThroughInterceptor(old(Snapshot()))
    {
      ghost var s0 := Snapshot();
      var cached := cacheManager.Get(AllProductsKey);
      if cached.Some? && Truthy(cached.value) {
        v := cached.value;
      } else {
        var products := FindAll();
        v := Many(products);
        cacheManager.Set(AllProductsKey, v);
      }
      FindAllThroughInterceptorKeepsCoherent(s0);
    }

    method FindOne(id: string) returns (r: Result<CacheVal>)
      requires Valid()
      modifies cacheManager
      ensures Valid()
      ensures Step(Snapshot(), r) == CacheAside.FindOne(old(Snapshot()), id)
    {
      ghost var s0 := Snapshot();
      FindOneKeepsCoherent(s0, id);
      var cacheKey := ProductKey(id);
      var product := cacheManager.Get(cacheKey);
      if product.None? || !Truthy(product.value) {
        var fetched := productsService.FindOne(id);
        if fetched.Err? {
          return Err(fetched.error);
        }
        product := Some(One(fetched.value));
        cacheManager.Set(cacheKey, product.value);
      }
      r := Ok(product.value);
    }

    method Update(id: string, patch: ProductPatch) returns (r: Result<Product>)
      requires Valid()
      modifies productsService, cacheManager
      ensures Valid()
      ensures Step(Snapshot(), r) == CacheAside.Update(old(Snapshot()), id, patch)
    {
      ghost var s0 := Snapshot();
      UpdateKeepsCoherent(s0, id, patch);
      r := productsService.Update(id, patch);
      if r.Err? {
        return;
      }
      cacheManager.Del(AllProductsKey);
      cacheManager.Del(ProductKey(id));
    }

    method Remove(id: string) returns (r: Result<Product>)
      requires Valid()
      modifies productsService, cacheManager
      ensures Valid()
      ensures Step(Snapshot(), r) == CacheAside.Remove(old(Snapshot()), id)
    {
      ghost var s0 := Snapshot();
      RemoveKeepsCoherent(s0, id);
      r := productsService.Remove(id);
      if r.Err? {
        return;
      }
      cacheManager.Del(AllProductsKey);
      cacheManager.Del(ProductKey(id));
    }

    /** Message `get_products`: the store's listing, bypassing the cache. */
    method GetProductsViaMicroservice() returns (products: seq<Product>)
      ensures products == productsService.records
    {
      products := productsService.FindAll();
    }

    /** Message `get_product`: the store's record or NotFound, bypassing the cache. */
    method GetProductViaMicroservice(id: string) returns (r: Result<Product>)
      ensures r.Ok? <==> exists p :: p in productsService.records && p.id == id
      ensures r.Ok? ==> r.value in productsService.records && r.value.id == id
      ensures r.Err? ==> r.error == NotFound
    {
      r := productsService.FindOne(id);
    }
  }

  /**
    * A client of the controller: an update followed by a read of the same
    * product. A successful update is never followed by a stale read; a
    * failed one by NotFound.
    */
  method UpdateThenFindOne(controller: ProductsController, id: string, patch: ProductPatch)
    returns (updated: Result<Product>, read: Result<CacheVal>)
    requires controller.Valid()
    modifies controller.productsService, controller.cacheManager
    ensures controller.Valid()
    ensures updated.Ok? ==> read == Ok(One(updated.value))
    ensures updated.Err? ==> read == Err(NotFound)
  {
    updated := controller.Update(id, patch);
    read := controller.FindOne(id);
  }
}
