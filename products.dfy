/**
  * Product records and the product store that ProductsService delegates to.
  *
  * The store is the collection of product records in the order the store
  * lists them (insertion order). Identifiers are assigned by the store on
  * create, are unique, and never change afterwards. Lookup, update and
  * delete of an identifier that no record has fail with NotFound.
  */
module Products {
  import opened Outcomes

  /** A stored product. */
  datatype Product = Product(id: string, name: string, description: Option<string>, price: real)

  /** The fields of a create request (CreateProductDto). */
  datatype NewProduct = NewProduct(name: string, description: Option<string>, price: real)

  /** The fields of an update request (UpdateProductDto); a field left out keeps its value. */
  datatype ProductPatch = ProductPatch(name: Option<string>, description: Option<string>, price: Option<real>)

  /** The record an update request turns `p` into. */
  function ApplyPatch(p: Product, patch: ProductPatch): (q: Product)
    ensures q.id == p.id
    ensures patch.name.Some? ==> q.name == patch.name.value
    ensures patch.name.None? ==> q.name == p.name
    ensures patch.description.Some? ==> q.description == patch.description
    ensures patch.description.None? ==> q.description == p.description
    ensures patch.price.Some? ==> q.price == patch.price.value
    ensures patch.price.None? ==> q.price == p.price
    ensures patch == ProductPatch(None, None, None) ==> q == p
  {
    Product(p.id,
            if patch.name.Some? then patch.name.value else p.name,
            if patch.description.Some? then patch.description else p.description,
            if patch.price.Some? then patch.price.value else p.price)
  }

  /** No two records share an identifier. */
  ghost predicate UniqueIds(records: seq<Product>) {
    forall i, j | 0 <= i < j < |records| :: records[i].id != records[j].id
  }

  /** The record with identifier `id`, if there is one. */
  function Find(records: seq<Product>, id: string): (r: Option<Product>)
    ensures r.Some? ==> r.value in records && r.value.id == id
    ensures r.None? <==> forall p | p in records :: p.id != id
  {
    if records == [] then None
    else if records[0].id == id then Some(records[0])
    else Find(records[1..], id)
  }

  /** A length no identifier in the store exceeds. */
  function LongestId(records: seq<Product>): (n: nat)
    ensures forall p | p in records :: |p.id| <= n
  {
    if records == [] then 0
    else
      var rest := LongestId(records[1..]);
      assert forall p | p in records :: p == records[0] || p in records[1..];
      if |records[0].id| < rest then rest else |records[0].id|
  }

  /** The identifier the store assigns to the next created record: non-empty and not yet in use. */
  function FreshId(records: seq<Product>): (id: string)
    ensures |id| > 0
    ensures Find(records, id) == None
  {
    seq(LongestId(records) + 1, _ => '0')
  }

  /** The record the store creates from a create request. */
  function Created(records: seq<Product>, dto: NewProduct): (p: Product)
    ensures Find(records, p.id) == None
    ensures p.name == dto.name && p.description == dto.description && p.price == dto.price
  {
    Product(FreshId(records), dto.name, dto.description, dto.price)
  }

  /** The store after the record with identifier `id` was updated with `patch`. */
  function Patched(records: seq<Product>, id: string, patch: ProductPatch): (r: seq<Product>)
    ensures |r| == |records|
    ensures forall i | 0 <= i < |r| :: r[i].id == records[i].id
    ensures Find(r, id) == if Find(records, id).Some? then Some(ApplyPatch(Find(records, id).value, patch)) else None
    ensures forall x | x != id :: Find(r, x) == Find(records, x)
  {
    if records == [] then []
    else
      var head := if records[0].id == id then ApplyPatch(records[0], patch) else records[0];
      var rest := Patched(records[1..], id, patch);
      assert ([head] + rest)[1..] == rest;
      [head] + rest
  }

  /** The store after the record with identifier `id` was deleted. */
  function Without(records: seq<Product>, id: string): (r: seq<Product>)
    ensures forall p | p in r :: p in records && p.id != id
    ensures forall x | x != id :: Find(r, x) == Find(records, x)
    ensures UniqueIds(records) ==> UniqueIds(r)
  {
    if records == [] then []
    else
      var rest := Without(records[1..], id);
      if records[0].id == id then rest
      else
        assert ([records[0]] + rest)[1..] == rest;
        assert UniqueIds(records) ==> forall p | p in rest :: p.id != records[0].id by {
          if UniqueIds(records) {
            forall p | p in rest ensures p.id != records[0].id {
              var k :| 0 <= k < |records[1..]| && records[1..][k] == p;
              assert records[k + 1] == p;
            }
          }
        }
        [records[0]] + rest
  }

  /** Deleting an identifier no record has leaves the store as it was. */
  lemma {:induction false} WithoutAbsent(records: seq<Product>, id: string)
    requires forall p | p in records :: p.id != id
    ensures Without(records, id) == records
  {
    if records != [] {
      assert forall p | p in records[1..] :: p in records;
      WithoutAbsent(records[1..], id);
      assert records == [records[0]] + records[1..];
    }
  }

  /** With unique identifiers, the rest of the store is again unique and holds no record with the first record's identifier. */
  lemma UniqueIdsTail(records: seq<Product>)
    requires UniqueIds(records)
    requires records != []
    ensures UniqueIds(records[1..])
    ensures forall p | p in records[1..] :: p.id != records[0].id
  {
    forall p | p in records[1..] ensures p.id != records[0].id {
      var j :| 0 <= j < |records[1..]| && records[1..][j] == p;
      assert records[j + 1] == p;
    }
  }

  /**
    * In a store with unique identifiers, deleting the record at index `k`
    * removes exactly that record and keeps every other one in its place
    * in the listing order.
    */
  lemma {:induction false} WithoutRemovesOneInOrder(records: seq<Product>, k: nat)
    requires UniqueIds(records)
    requires k < |records|
    ensures Without(records, records[k].id) == records[..k] + records[k + 1..]
  {
    UniqueIdsTail(records);
    if k == 0 {
      WithoutAbsent(records[1..], records[0].id);
    } else {
      var id := records[k].id;
      assert records[0].id != id;
      WithoutRemovesOneInOrder(records[1..], k - 1);
      assert records[1..][k - 1] == records[k];
      assert records[..k] == [records[0]] + records[1..][..k - 1];
      assert records[k + 1..] == records[1..][k..];
    }
  }

  /** Patching keeps every identifier, so it keeps them unique. */
  lemma PatchedKeepsUniqueIds(records: seq<Product>, id: string, patch: ProductPatch)
    requires UniqueIds(records)
    ensures UniqueIds(Patched(records, id, patch))
  {
  }

  /** Appending a record whose identifier is not in use keeps identifiers unique. */
  lemma AppendKeepsUniqueIds(records: seq<Product>, p: Product)
    requires UniqueIds(records)
    requires Find(records, p.id) == None
    ensures UniqueIds(records + [p])
  {
  }

  /** Appending a record with a fresh identifier changes no lookup except that of the new identifier. */
  lemma {:induction false} FindAppend(records: seq<Product>, p: Product, id: string)
    requires Find(records, p.id) == None
    ensures Find(records + [p], id) == if id == p.id then Some(p) else Find(records, id)
  {
    if records == [] {
      assert records + [p] == [p];
    } else {
      assert (records + [p])[1..] == records[1..] + [p];
      if records[0].id != id {
        FindAppend(records[1..], p, id);
      }
    }
  }
}
