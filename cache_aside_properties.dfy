/**
  * Properties of the cache-aside protocol that relate several requests:
  * what a read sees after a write, that a coherent cache never changes
  * what a read returns, and the create/list/update/read/delete scenario.
  */
module CacheAsideProperties {
  import opened Outcomes
  import opened Products
  import opened CacheKeys
  import opened CacheAside

  /** Under a coherent cache a single-product read returns what it would return with an empty cache. */
  lemma FindOneIsTransparent(s: State, id: string)
    requires Coherent(s)
    ensures FindOne(s, id).out == FindOne(State(map[], s.store), id).out
  {
  }

  /** Under a coherent cache the list read returns exactly the store's listing. */
  lemma FindAllIsTransparent(s: State)
    requires Coherent(s)
    ensures FindAllThroughInterceptor(s).out == Many(s.store)
  {
  }

  /** A falsy cached value never short-circuits a read: the store is asked again and the entry overwritten. */
  lemma FalsyEntryIsRefetched(s: State, id: string, p: Product)
    requires ProductKey(id) in s.cache && s.cache[ProductKey(id)] == Nil
    requires Find(s.store, id) == Some(p)
    ensures FindOne(s, id).out == Ok(One(p))
    ensures FindOne(s, id).after.cache[ProductKey(id)] == One(p)
  {
  }

  /** A read for an identifier the store lacks populates no cache entry and changes nothing. */
  lemma NotFoundIsNotCached(s: State, id: string)
    requires !IsHit(s.cache, ProductKey(id))
    requires Find(s.store, id) == None
    ensures FindOne(s, id) == Step(s, Err(NotFound))
  {
  }

  /** A second single-product read with no write in between is a hit and returns the same value. */
  lemma FindOneTwiceIsHit(s: State, id: string)
    requires FindOne(s, id).out.Ok?
    ensures var s1 := FindOne(s, id).after;
      IsHit(s1.cache, ProductKey(id)) && FindOne(s1, id) == Step(s1, FindOne(s, id).out)
  {
  }

  /** A second list read with no write in between is a hit and returns the same value. */
  lemma FindAllTwiceIsHit(s: State)
    ensures var s1 := FindAllThroughInterceptor(s).after;
      IsHit(s1.cache, AllProductsKey) && FindAllThroughInterceptor(s1) == Step(s1, FindAllThroughInterceptor(s).out)
  {
  }

  /**
    * After a successful update the next read of that product misses,
    * returns the updated record and caches it, whatever the cache held
    * before; the next list read misses and returns the updated store.
    */
  lemma ReadAfterUpdate(s: State, id: string, patch: ProductPatch)
    requires Update(s, id, patch).out.Ok?
    ensures var u := Update(s, id, patch);
      && !IsHit(u.after.cache, ProductKey(id))
      && FindOne(u.after, id).out == Ok(One(u.out.value))
      && FindOne(u.after, id).after.cache == u.after.cache[ProductKey(id) := One(u.out.value)]
      && FindAllThroughInterceptor(u.after).out == Many(Patched(s.store, id, patch))
  {
  }

  /**
    * After a successful delete the next read of that product signals
    * NotFound and caches nothing; the next list read misses and no
    * record in it has the deleted identifier.
    */
  lemma ReadAfterRemove(s: State, id: string)
    requires Remove(s, id).out.Ok?
    ensures var d := Remove(s, id);
      && FindOne(d.after, id) == Step(d.after, Err(NotFound))
      && FindAllThroughInterceptor(d.after).out == Many(d.after.store)
      && forall p | p in d.after.store :: p.id != id
  {
  }

  /**
    * After a create, reading the new product by its identifier returns it
    * with every field as requested, and the list read misses and returns
    * the old listing followed by the new record.
    */
  lemma ReadAfterCreate(s: State, dto: NewProduct)
    requires Coherent(s)
    ensures var c := Create(s, dto);
      && FindOne(c.after, c.out.id).out == Ok(One(c.out))
      && FindAllThroughInterceptor(c.after).out == Many(s.store + [c.out])
  {
  }

  /** A failed update or delete leaves the cache and the store as they were. */
  lemma FailedWritesChangeNothing(s: State, id: string, patch: ProductPatch)
    requires Find(s.store, id) == None
    ensures Update(s, id, patch) == Step(s, Err(NotFound))
    ensures Remove(s, id) == Step(s, Err(NotFound))
  {
  }

  /**
    * The end-to-end scenario: create a product, list, change its price,
    * read it back, delete it, read it again. From any coherent state the
    * list contains the new product, the read after the update sees the
    * new price and not the old one, and the read after the delete signals
    * NotFound.
    */
  lemma CreateUpdateDeleteScenario(s: State, name: string, description: string)
    requires Coherent(s)
    ensures
      var c := Create(s, NewProduct(name, Some(description), 100.0));
      var p := c.out;
      var l := FindAllThroughInterceptor(c.after);
      var u := Update(l.after, p.id, ProductPatch(None, None, Some(150.0)));
      var g := FindOne(u.after, p.id);
      var d := Remove(g.after, p.id);
      && |p.id| > 0 && p.name == name && p.description == Some(description) && p.price == 100.0
      && l.out.Many? && p in l.out.products
      && u.out.Ok? && u.out.value.price == 150.0
      && g.out.Ok? && g.out.value == One(u.out.value) && g.out.value.product.price != 100.0
      && d.out.Ok?
      && FindOne(d.after, p.id).out == Err(NotFound)
  {
  }
}
