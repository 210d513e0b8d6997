# Cache-aside product controller, modelled in Dafny

This project models `ProductsController` of a NestJS product-catalog service.
The controller serves product CRUD over HTTP and two read-only commands
(`get_products`, `get_product`) over a TCP microservice transport. It keeps
a Redis-backed cache in front of the product store. Reads check the cache
and fill it on a miss. Writes invalidate the affected keys after the store
call succeeds.

The cache keys are the fixed list key `all_products` and one key
`product_<id>` per product. `findOne` returns a present, truthy cached value
as is. Otherwise it asks the store and caches the answer under the per-id
key. `create` deletes `all_products`. `update` and `remove` delete
`all_products` and `product_<id>`, but only once the store call has
succeeded; a NotFound from the store leaves the cache untouched. The
microservice handlers read the store directly and never touch the cache.

Layout:

- `outcomes.dfy` (`Outcomes`): `Option`, the `NotFound` error, and `Result`.
- `products.dfy` (`Products`): the product record, the create and update
  payloads, and the store the service delegates to. The store is a sequence
  of records in listing order with unique identifiers.
- `cache_keys.dfy` (`CacheKeys`): the key scheme and its inverse `KeyId`.
- `cache_aside.dfy` (`CacheAside`): each handler as a pure step from a
  `(cache, store)` state to the next state and a returned value. It also
  holds the invariant `Coherent`: every truthy entry under a modelled key
  agrees with the store. Every step and every cache expiry keeps it.
- `cache_aside_properties.dfy` (`CacheAsideProperties`): properties that
  span several requests. They cover read-after-write, cache transparency,
  repeated reads, and the create/list/update/read/delete scenario.
- `controller.dfy` (`Controller`): the classes `CacheManager`,
  `ProductsService` and `ProductsController`. Their state changes in place.
  The handlers create, findOne, update, remove and the list read through
  the response cache are each proved equal to their `CacheAside` step and
  to keep `Valid()`, which means unique identifiers and a coherent cache.
  The other three handlers (`FindAll`, `GetProductsViaMicroservice`,
  `GetProductViaMicroservice`) change nothing, having no `modifies` clause,
  and their results are stated directly in terms of the store.

`ProductsService` and the Mongo persistence behind it are not part of this
model. They are abstracted as the store above: lookup, update and delete of
an unknown identifier fail with `NotFound`. Create assigns an identifier
that is not in use. Cache get/set/del are the `CacheManager` methods.

## Model

| member | source | states |
|---|---|---|
| `CacheKeys.ProductKey` | src/products/products.controller.ts:58 | the per-product key names exactly its identifier (`KeyId` recovers it) and is never `all_products` |
| `CacheKeys.KeyIdInverse` | src/products/products.controller.ts:58 | a key names identifier `id` if and only if it is `product_` followed by `id` |
| `CacheKeys.ProductKeyInjective` | src/products/products.controller.ts:79 | two identifiers share a per-product key if and only if they are equal |
| `CacheKeys.AllProductsKeyNamesNoId` | src/products/products.controller.ts:39 | `all_products` is not the key of any identifier |
| `Products.ApplyPatch` | src/products/products.controller.ts:76 | an update never changes the identifier; each field the patch carries takes the patch's value and each field it omits keeps its old value, so an empty patch changes nothing |
| `Products.Find` | src/products/products.controller.ts:63 | store lookup: a found record is in the store and has the identifier; nothing is found exactly when no record has it |
| `Products.FreshId` | src/products/products.controller.ts:37 | the identifier create assigns is non-empty and not used by any record |
| `Products.Created` | src/products/products.controller.ts:37 | the created record has a fresh identifier and the requested name, description and price |
| `Products.Patched` | src/products/products.controller.ts:76 | updating keeps every identifier; the updated record is found patched and every other lookup is unchanged |
| `Products.Without` | src/products/products.controller.ts:86 | deleting leaves only records of the store without the identifier, every other lookup unchanged and identifiers unique |
| `Products.WithoutAbsent` | src/products/products.controller.ts:86 | deleting an identifier no record has leaves the store as it was |
| `Products.WithoutRemovesOneInOrder` | src/products/products.controller.ts:86 | with unique identifiers, deleting the record at index `k` removes exactly that record and keeps all others in listing order |
| `Products.PatchedKeepsUniqueIds` | src/products/products.controller.ts:76 | an update keeps identifiers unique |
| `Products.AppendKeepsUniqueIds` | src/products/products.controller.ts:37 | a create keeps identifiers unique |
| `Products.FindAppend` | src/products/products.controller.ts:37 | after a create, lookups of every other identifier are unchanged and the new identifier finds the new record |
| `CacheAside.Create` | src/products/products.controller.ts:36-41 | create returns the store's new record, appends it to the store, removes `all_products` and leaves every other cache entry, every `product_*` entry included, unchanged |
| `CacheAside.FindOne` | src/products/products.controller.ts:57-68 | a hit returns the cached value and changes nothing; a miss returns the store's record and caches it under `product_<id>` only; a store NotFound is returned and nothing is cached; the store is never changed |
| `CacheAside.Invalidate` | src/products/products.controller.ts:78-79 | the two deletes remove `all_products` and `product_<id>` and leave every other entry as it was |
| `CacheAside.Update` | src/products/products.controller.ts:72-81 | on success returns the patched record, patches the store and removes both `all_products` and `product_<id>`; on NotFound changes nothing; no other cache key ever changes |
| `CacheAside.Remove` | src/products/products.controller.ts:85-91 | on success returns the deleted record, deletes it from the store and removes both keys; on NotFound changes nothing; no other cache key ever changes |
| `CacheAside.FindAllThroughInterceptor` | src/products/products.controller.ts:44-46 | assumed response cache for the list: a hit returns the cached list unchanged; a miss returns the store's listing and caches it under `all_products` |
| `CacheAside.Expire` | src/app.module.ts:29-30 | the cache backend dropping a key (TTL or capacity) removes that key only |
| `CacheAside.CreateKeepsCoherent` | src/products/products.controller.ts:36-41 | create keeps every truthy cache entry in agreement with the store |
| `CacheAside.FindOneKeepsCoherent` | src/products/products.controller.ts:57-68 | a single-product read keeps the cache coherent |
| `CacheAside.UpdateKeepsCoherent` | src/products/products.controller.ts:76-79 | update keeps the cache coherent |
| `CacheAside.RemoveKeepsCoherent` | src/products/products.controller.ts:86-89 | remove keeps the cache coherent |
| `CacheAside.FindAllThroughInterceptorKeepsCoherent` | src/products/products.controller.ts:44-46 | the list read keeps the cache coherent |
| `CacheAside.ExpireKeepsCoherent` | src/app.module.ts:29-30 | expiry or eviction of any key keeps the cache coherent |
| `CacheAsideProperties.FindOneIsTransparent` | src/products/products.controller.ts:57-68 | with a coherent cache, a single-product read returns what it would return with an empty cache |
| `CacheAsideProperties.FindAllIsTransparent` | src/products/products.controller.ts:44-51 | with a coherent cache, the list read returns exactly the store's listing |
| `CacheAsideProperties.FalsyEntryIsRefetched` | src/products/products.controller.ts:59-64 | a falsy cached value counts as a miss: the store's record is returned and overwrites it |
| `CacheAsideProperties.NotFoundIsNotCached` | src/products/products.controller.ts:61-64 | a miss for an unknown identifier returns NotFound and populates no entry |
| `CacheAsideProperties.FindOneTwiceIsHit` | src/products/products.controller.ts:57-68 | after a successful read, the next read of the same product is a hit with the same value |
| `CacheAsideProperties.FindAllTwiceIsHit` | src/products/products.controller.ts:44-46 | a second list read with no write in between is a hit with the same value |
| `CacheAsideProperties.ReadAfterUpdate` | src/products/products.controller.ts:76-79 | after a successful update the next read misses and returns the updated record, and the list read returns the updated store |
| `CacheAsideProperties.ReadAfterRemove` | src/products/products.controller.ts:86-89 | after a successful delete the next read signals NotFound and caches nothing, and no listed record has the identifier |
| `CacheAsideProperties.ReadAfterCreate` | src/products/products.controller.ts:37-39 | after a create, reading the new identifier returns the new record and the list read returns the old listing followed by it |
| `CacheAsideProperties.FailedWritesChangeNothing` | src/products/products.controller.ts:76-89 | update and remove of an unknown identifier return NotFound and leave cache and store as they were |
| `CacheAsideProperties.CreateUpdateDeleteScenario` | src/products/products.controller.ts:36-91 | create (price 100), list, update (price 150), read, delete, read: the list holds the new product, the read sees 150, the last read signals NotFound |
| `Controller.CacheManager.Get` | src/products/products.controller.ts:59 | `get` returns the entry under the key, or nothing when there is none |
| `Controller.CacheManager.Set` | src/products/products.controller.ts:64 | `set` changes the entry under that key and no other |
| `Controller.CacheManager.Del` | src/products/products.controller.ts:39 | `del` removes the entry under that key and no other |
| `Controller.ProductsService.Create` | src/products/products.controller.ts:37 | the store appends the created record with a fresh identifier |
| `Controller.ProductsService.FindAll` | src/products/products.controller.ts:50 | the listing is every record in store order |
| `Controller.ProductsService.FindOne` | src/products/products.controller.ts:63 | returns a record with the identifier if one exists, NotFound otherwise |
| `Controller.ProductsService.Update` | src/products/products.controller.ts:76 | patches the record, or returns NotFound leaving the store unchanged |
| `Controller.ProductsService.Remove` | src/products/products.controller.ts:86 | deletes the record and returns it, or returns NotFound leaving the store unchanged |
| `Controller.ProductsController.constructor` | src/products/products.controller.ts:28-31 | the controller holds the service and cache manager it is given |
| `Controller.ProductsController.Create` | src/products/products.controller.ts:36-41 | behaves as `CacheAside.Create` and keeps the cache coherent |
| `Controller.ProductsController.FindAll` | src/products/products.controller.ts:48-51 | the handler body returns the store's listing and changes nothing |
| `Controller.ProductsController.FindAllThroughInterceptor` | src/products/products.controller.ts:43-51 | behaves as `CacheAside.FindAllThroughInterceptor` and keeps the cache coherent |
| `Controller.ProductsController.FindOne` | src/products/products.controller.ts:57-68 | behaves as `CacheAside.FindOne`, never changes the store, and keeps the cache coherent |
| `Controller.ProductsController.Update` | src/products/products.controller.ts:72-81 | behaves as `CacheAside.Update` and keeps the cache coherent |
| `Controller.ProductsController.Remove` | src/products/products.controller.ts:85-91 | behaves as `CacheAside.Remove` and keeps the cache coherent |
| `Controller.ProductsController.GetProductsViaMicroservice` | src/products/products.controller.ts:93-97 | returns the store's listing and neither reads nor changes the cache |
| `Controller.ProductsController.GetProductViaMicroservice` | src/products/products.controller.ts:99-103 | returns the store's record or NotFound and neither reads nor changes the cache |
| `Controller.UpdateThenFindOne` | src/products/products.controller.ts:57-81 | an update followed by a read of the same product returns the updated record, or NotFound when the update failed |

## Left out

- `CacheAside.FindAllThroughInterceptor`: the caching of the list under `all_products` comes from NestJS's `CacheInterceptor` with `@CacheKey('all_products')` (src/products/products.controller.ts:44-46). That library code is not part of this model. The step is an assumption about it: a present, non-null value is a hit; otherwise the handler runs and its result is cached.
- The class-level and method-level `CacheInterceptor`s (src/products/products.controller.ts:24, 44, 54) also cache GET responses under their request URL, `findOne` included. Those URL keys are not modelled. `update` and `remove` do not delete them, so the read-after-write properties here hold for the controller's own keys only. In the running service a cached `findOne` response may outlive an update until its TTL ends.
- TTLs (`@CacheTTL(10000)`, `@CacheTTL(30)`, default `ttl: 60 * 60`) and the capacity `max: 50` are not modelled as time or LRU order. Any expiry or eviction is `CacheAside.Expire` of an arbitrary key.
- `Controller.ProductsController.constructor`: requires that the cache it starts from agrees with the store (`Coherent`). An empty cache, the all-absent initial state, meets this. Entries left in the shared Redis cache after the store was changed outside this service do not, and for such a start none of the `Valid()`-based results, `ReadAfterCreate` or `CreateUpdateDeleteScenario` is promised (`ReadAfterUpdate`, `ReadAfterRemove` and the handler steps themselves hold from any state).
- Concurrency: every handler is atomic. The race where a read-miss writes back a value fetched before a concurrent invalidation is not modelled.
- Backend failures: the model has no cache or store outage. The code has no `try`/`catch` around the cache calls, so a failing cache call rejects the whole request: a read does not fall back to the store, and a write whose store call succeeded still reports an error if an invalidation fails. The model has no failing cache call, so it captures neither outcome.
- `ProductsService` and Mongo persistence (src/products/products.service.ts is not part of this model) are abstracted as the store described above. Identifier generation is `Products.FreshId`, a deterministic stand-in for store-assigned identifiers: it is only promised to be fresh, not to look like a Mongo ObjectId.
- DTO validation (non-empty name, non-negative price) happens before the controller and is not modelled. Prices are `real`; floating-point behaviour is not modelled.
- Logging (`this.logger.debug`), routing and dependency-injection decorators, Swagger annotations, and the bootstrap in src/main.ts and src/microservice-client.ts are not modelled.
