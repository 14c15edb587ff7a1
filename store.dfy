/** backend/internal/store/product_store.go: argument checks and pagination clamping in front of the
    product queries.  Query errors are wrapped with `%w`; validation errors are plain messages. */
module Store {
  import opened GoInts
  import opened Wrappers
  import opened GoErrors
  import opened ProductsDb

  const MAX_PAGE: Int32 := 100

  /** The `(limit, offset)` the list query receives: a negative limit or offset is rejected before
      any query, and a limit above 100 is lowered to 100. */
  function Pagination(limit: Int32, offset: Int32): (r: Result<(Int32, Int32), Error>)
    ensures r.Ok? <==> 0 <= limit && 0 <= offset
    ensures r.Ok? ==> 0 <= r.value.0 <= MAX_PAGE && r.value.1 == offset
    ensures r.Ok? && limit <= MAX_PAGE ==> r.value.0 == limit
    ensures r.Ok? && limit > MAX_PAGE ==> r.value.0 == MAX_PAGE
    ensures r.Err? ==> r.error.Message?
  {
    if limit < 0 || offset < 0 then
      Err(Message("store: invalid pagination"))
    else if limit > MAX_PAGE then
      Ok((MAX_PAGE, offset))
    else
      Ok((limit, offset))
  }

  /** UpdatePrice accepts a positive id and a price that is not negative; a price of 0 passes here. */
  function CheckPriceUpdate(id: Int32, priceCents: Int32): (r: Option<Error>)
    ensures r.None? <==> id > 0 && priceCents >= 0
    ensures r.Some? ==> r.value.Message?
  {
    if id <= 0 then Some(Message("store: invalid product id"))
    else if priceCents < 0 then Some(Message("store: price cannot be negative"))
    else None
  }

  /** Delete accepts a positive id only. */
  function CheckDelete(id: Int32): (r: Option<Error>)
    ensures r.None? <==> id > 0
    ensures r.Some? ==> r.value.Message?
  {
    if id <= 0 then Some(Message("store: invalid product id")) else None
  }

  class ProductStore {
    const queries: Queries

    constructor (queries: Queries)
      ensures this.queries == queries
    {
      this.queries := queries;
    }

    /** Passes the insert and its result through unchanged. */
    method Create(params: CreateProductParams, fault: Option<string>) returns (r: Result<Product, Error>)
      requires queries.Valid()
      modifies queries
      ensures queries.Valid()
      ensures fault.Some? ==> r == Err(DriverError(fault.value)) && unchanged(queries)
      ensures fault.None? && old(queries.nextId) > MAX_INT32 ==> r.Err? && r.error.DriverError? && unchanged(queries)
      ensures fault.None? && old(queries.nextId) <= MAX_INT32 ==>
        && r == Ok(Product(old(queries.nextId), params.slug, params.title, params.description, params.priceCents))
        && queries.products == old(queries.products)[old(queries.nextId) := r.value]
        && queries.nextId == old(queries.nextId) + 1
    {
      r := queries.CreateProduct(params, fault);
    }

    /** Passes the lookup and its error through unchanged: a missing id is `sql.ErrNoRows`. */
    method Get(id: Int32, fault: Option<string>) returns (r: Result<Product, Error>)
      ensures fault.Some? ==> r == Err(DriverError(fault.value))
      ensures fault.None? ==> r == queries.Lookup(id)
    {
      r := queries.GetProductByID(id, fault);
    }

    /** Rejects bad pagination before querying, clamps the limit, and wraps a query error. */
    method List(limit: Int32, offset: Int32, fault: Option<string>) returns (r: Result<seq<Product>, Error>)
      requires queries.Valid()
      ensures r.Err? ==> !Is(r.error, NotFound)
      ensures Pagination(limit, offset).Err? ==> r == Err(Pagination(limit, offset).error)
      ensures Pagination(limit, offset).Ok? && fault.Some? ==>
        r == Err(Wrapped("store: list products", DriverError(fault.value)))
      ensures Pagination(limit, offset).Ok? && fault.None? ==>
        var (l, o) := Pagination(limit, offset).value;
        && r.Ok?
        && |r.value| == PageSize(l, o, |queries.products|)
        && (forall i :: 0 <= i < |r.value| ==> r.value[i].id in queries.products && queries.products[r.value[i].id] == r.value[i])
        && (forall i, j :: 0 <= i < j < |r.value| ==> r.value[i].id != r.value[j].id)
    {
      var page := Pagination(limit, offset);
      if page.Err? {
        return Err(page.error);
      }
      var (l, o) := page.value;
      var products := queries.ListProducts(l, o, fault);
      if products.Err? {
        return Err(Wrapped("store: list products", products.error));
      }
      r := products;
    }

    /** Zero rows and an error on a rejected argument or a failed query; otherwise the query's own
        count of rows affected. */
    method UpdatePrice(id: Int32, priceCents: Int32, fault: Option<string>) returns (rows: Int64, err: Option<Error>)
      requires queries.Valid()
      modifies queries
      ensures queries.Valid()
      ensures err.Some? ==> rows == 0 && !Is(err.value, NotFound)
      ensures rows == 0 ==> unchanged(queries)
      ensures CheckPriceUpdate(id, priceCents).Some? ==> err == CheckPriceUpdate(id, priceCents)
      ensures CheckPriceUpdate(id, priceCents).None? && fault.Some? ==>
        err == Some(Wrapped("store: update product price", DriverError(fault.value)))
      ensures CheckPriceUpdate(id, priceCents).None? && fault.None? ==>
        && err.None?
        && rows == (if id in old(queries.products) then 1 else 0)
        && queries.products == (if id in old(queries.products)
                               then old(queries.products)[id := old(queries.products)[id].(priceCents := priceCents)]
                               else old(queries.products))
        && queries.nextId == old(queries.nextId)
    {
      var invalid := CheckPriceUpdate(id, priceCents);
      if invalid.Some? {
        return 0, invalid;
      }
      var affected, failure := queries.UpdateProductPrice(id, priceCents, fault);
      if failure.Some? {
        return 0, Some(Wrapped("store: update product price", failure.value));
      }
      rows, err := affected, None;
    }

    /** Zero rows and an error on a non-positive id or a failed query; otherwise the query's own
        count of rows affected. */
    method Delete(id: Int32, fault: Option<string>) returns (rows: Int64, err: Option<Error>)
      requires queries.Valid()
      modifies queries
      ensures queries.Valid()
      ensures err.Some? ==> rows == 0 && !Is(err.value, NotFound)
      ensures rows == 0 ==> unchanged(queries)
      ensures CheckDelete(id).Some? ==> err == CheckDelete(id)
      ensures CheckDelete(id).None? && fault.Some? ==>
        err == Some(Wrapped("store: delete product", DriverError(fault.value)))
      ensures CheckDelete(id).None? && fault.None? ==>
        && err.None?
        && rows == (if id in old(queries.products) then 1 else 0)
        && queries.products == old(queries.products) - {id}
        && queries.nextId == old(queries.nextId)
    {
      var invalid := CheckDelete(id);
      if invalid.Some? {
        return 0, invalid;
      }
      var affected, failure := queries.DeleteProduct(id, fault);
      if failure.Some? {
        return 0, Some(Wrapped("store: delete product", failure.value));
      }
      rows, err := affected, None;
    }
  }
}
