/** The product table behind the sqlc-generated `productsdb.Queries`, whose code is not part of
    this model.  It is modelled only as a map from id to product with a serial id source; nothing
    is claimed about row order.  A database failure is an input: `fault == Some(detail)` makes
    the query fail with that driver error and leave the table as it was. */
module ProductsDb {
  import opened GoInts
  import opened Wrappers
  import opened GoErrors

  datatype Product = Product(id: Int32, slug: string, title: string, description: string, priceCents: Int32)

  datatype CreateProductParams = CreateProductParams(slug: string, title: string, description: string, priceCents: Int32)

  /** The smaller of a requested page size and the rows left after skipping `offset`. */
  function PageSize(limit: nat, offset: nat, rows: nat): nat {
    var left := if offset <= rows then rows - offset else 0;
    if limit <= left then limit else left
  }

  class Queries {
    var products: map<Int32, Product>
    var nextId: int

    /** Every product sits under its own id, and ids are positive and below the next serial value. */
    ghost predicate Valid()
      reads this
    {
      && 0 < nextId
      && forall id :: id in products ==> products[id].id == id && 0 < id < nextId
    }

    /** The answer `GetProductByID` gives when the database does not fail. */
    function Lookup(id: Int32): (r: Result<Product, Error>)
      reads this
      ensures r.Ok? <==> id in products
      ensures r.Ok? ==> r.value == products[id]
      ensures r.Err? ==> r.error == NoRows
    {
      if id in products then Ok(products[id]) else Err(NoRows)
    }

    constructor ()
      ensures Valid() && products == map[] && nextId == 1
    {
      products := map[];
      nextId := 1;
    }

    /** Inserts a product under the next serial id.  When the serial has left the int32 range the
        insert fails instead. */
    method CreateProduct(params: CreateProductParams, fault: Option<string>) returns (r: Result<Product, Error>)
      requires Valid()
      modifies this
      ensures Valid()
      ensures fault.Some? ==> r == Err(DriverError(fault.value)) && unchanged(this)
      ensures fault.None? && old(nextId) > MAX_INT32 ==> r.Err? && r.error.DriverError? && unchanged(this)
      ensures fault.None? && old(nextId) <= MAX_INT32 ==>
        && r == Ok(Product(old(nextId), params.slug, params.title, params.description, params.priceCents))
        && products == old(products)[old(nextId) := r.value]
        && nextId == old(nextId) + 1
    {
      if fault.Some? {
        return Err(DriverError(fault.value));
      }
      if nextId > MAX_INT32 {
        return Err(DriverError("integer out of range"));
      }
      var product := Product(nextId, params.slug, params.title, params.description, params.priceCents);
      products := products[nextId := product];
      nextId := nextId + 1;
      r := Ok(product);
    }

    method GetProductByID(id: Int32, fault: Option<string>) returns (r: Result<Product, Error>)
      ensures fault.Some? ==> r == Err(DriverError(fault.value))
      ensures fault.None? ==> r == Lookup(id)
    {
      if fault.Some? {
        return Err(DriverError(fault.value));
      }
      r := Lookup(id);
    }

    /** Skips `offset` rows and returns up to `limit` distinct stored products, in an order the
        model leaves unspecified.  A negative limit or offset makes the query fail. */
    method ListProducts(limit: Int32, offset: Int32, fault: Option<string>) returns (r: Result<seq<Product>, Error>)
      requires Valid()
      ensures fault.Some? ==> r == Err(DriverError(fault.value))
      ensures fault.None? ==> (r.Ok? <==> 0 <= limit && 0 <= offset)
      ensures r.Err? ==> r.error.DriverError?
      ensures r.Ok? ==> |r.value| == PageSize(limit, offset, |products|)
      ensures r.Ok? ==> forall i :: 0 <= i < |r.value| ==> r.value[i].id in products && products[r.value[i].id] == r.value[i]
      ensures r.Ok? ==> forall i, j :: 0 <= i < j < |r.value| ==> r.value[i].id != r.value[j].id
    {
      if fault.Some? {
        return Err(DriverError(fault.value));
      }
      if limit < 0 || offset < 0 {
        return Err(DriverError("LIMIT and OFFSET must not be negative"));
      }
      var remaining := products.Keys;
      var skipped := 0;
      while skipped < offset && remaining != {}
        invariant remaining <= products.Keys
        invariant 0 <= skipped <= offset
        invariant |remaining| == |products.Keys| - skipped
        decreases remaining
      {
        var id :| id in remaining;
        remaining := remaining - {id};
        skipped := skipped + 1;
      }
      ghost var left := |remaining|;
      assert left == if offset <= |products| then |products| - offset else 0 by {
        assert |products| == |products.Keys|;
      }
      var page: seq<Product> := [];
      while |page| < limit && remaining != {}
        invariant remaining <= products.Keys
        invariant |page| + |remaining| == left
        invariant |page| <= limit
        invariant forall i :: 0 <= i < |page| ==> page[i].id in products && products[page[i].id] == page[i] && page[i].id !in remaining
        invariant forall i, j :: 0 <= i < j < |page| ==> page[i].id != page[j].id
        decreases remaining
      {
        var id :| id in remaining;
        page := page + [products[id]];
        remaining := remaining - {id};
      }
      r := Ok(page);
    }

    /** Sets the price of the product with that id; the count of rows affected is 1 when it exists
        and 0 when it does not. */
    method UpdateProductPrice(id: Int32, priceCents: Int32, fault: Option<string>) returns (rows: Int64, err: Option<Error>)
      requires Valid()
      modifies this
      ensures Valid()
      ensures fault.Some? ==> rows == 0 && err == Some(DriverError(fault.value)) && unchanged(this)
      ensures fault.None? && id !in old(products) ==> rows == 0 && err.None? && unchanged(this)
      ensures fault.None? && id in old(products) ==>
        && rows == 1 && err.None?
        && products == old(products)[id := old(products)[id].(priceCents := priceCents)]
        && nextId == old(nextId)
    {
      if fault.Some? {
        return 0, Some(DriverError(fault.value));
      }
      if id !in products {
        return 0, None;
      }
      products := products[id := products[id].(priceCents := priceCents)];
      rows, err := 1, None;
    }

    /** Deletes the product with that id; the count of rows affected is 1 when it existed and 0 when
        it did not. */
    method DeleteProduct(id: Int32, fault: Option<string>) returns (rows: Int64, err: Option<Error>)
      requires Valid()
      modifies this
      ensures Valid()
      ensures fault.Some? ==> rows == 0 && err == Some(DriverError(fault.value)) && unchanged(this)
      ensures fault.None? && id !in old(products) ==> rows == 0 && err.None? && unchanged(this)
      ensures fault.None? && id in old(products) ==>
        rows == 1 && err.None? && products == old(products) - {id} && nextId == old(nextId)
    {
      if fault.Some? {
        return 0, Some(DriverError(fault.value));
      }
      if id !in products {
        return 0, None;
      }
      products := products - {id};
      rows, err := 1, None;
    }
  }
}
