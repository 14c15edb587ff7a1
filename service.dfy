/** backend/service/product_service.go: business rules in front of the product store, and the
    mapping of "no rows" and "0 rows affected" to an error that wraps `ErrNotFound`. */
module Service {
  import opened GoInts
  import opened Wrappers
  import opened GoErrors
  import opened ProductsDb
  import Store

  const DEFAULT_LIMIT: Int32 := 10
  const MAX_LIMIT: Int32 := 50

  datatype CreateProductInput = CreateProductInput(slug: string, title: string, description: string, priceCents: Int32)

  /** Create needs a slug (checked first) and a positive price; both rejections are plain messages. */
  function ValidateCreate(input: CreateProductInput): (r: Option<Error>)
    ensures r.None? <==> input.slug != "" && input.priceCents > 0
    ensures input.slug == "" ==> r == Some(Message("slug is required"))
    ensures input.slug != "" && input.priceCents <= 0 ==> r == Some(Message("price must be positive"))
  {
    if input.slug == "" then Some(Message("slug is required"))
    else if input.priceCents <= 0 then Some(Message("price must be positive"))
    else None
  }

  /** The limit List hands to the store: a limit that is not positive becomes 10, one above 50 is
      rejected with an error wrapping ErrInvalidInput, and so the store only sees 1..50. */
  function EffectiveLimit(limit: Int32): (r: Result<Int32, Error>)
    ensures r.Ok? <==> limit <= MAX_LIMIT
    ensures r.Ok? ==> 1 <= r.value <= MAX_LIMIT
    ensures r.Ok? && limit <= 0 ==> r.value == DEFAULT_LIMIT
    ensures r.Ok? && limit > 0 ==> r.value == limit
    ensures r.Err? ==> Is(r.error, InvalidInput) && !Is(r.error, NotFound)
  {
    var l := if limit <= 0 then DEFAULT_LIMIT else limit;
    if l > MAX_LIMIT then Err(Wrapped("service: list products", InvalidInput)) else Ok(l)
  }

  /** UpdatePrice needs a positive id and a positive price; either failure wraps ErrInvalidInput. */
  function ValidatePriceUpdate(id: Int32, priceCents: Int32): (r: Option<Error>)
    ensures r.None? <==> id > 0 && priceCents > 0
    ensures r.Some? ==> Is(r.value, InvalidInput) && !Is(r.value, NotFound)
  {
    if id <= 0 || priceCents <= 0 then Some(Wrapped("service: update price", InvalidInput)) else None
  }

  /** Delete needs a positive id; the failure wraps ErrInvalidInput. */
  function ValidateDelete(id: Int32): (r: Option<Error>)
    ensures r.None? <==> id > 0
    ensures r.Some? ==> Is(r.value, InvalidInput) && !Is(r.value, NotFound)
  {
    if id <= 0 then Some(Wrapped("service: delete product", InvalidInput)) else None
  }

  /** The error Get reports for a store error: `sql.ErrNoRows` becomes an error wrapping
      ErrNotFound (and dropping the original), anything else is wrapped as it is. */
  function GetFailure(err: Error): (r: Error)
    ensures Is(r, NotFound) <==> Is(err, NoRows) || Is(err, NotFound)
    ensures Is(err, NoRows) ==> !Is(r, NoRows)
    ensures !Is(err, NoRows) ==> r.Wrapped? && r.inner == err
  {
    if Is(err, NoRows) then Wrapped("product not found", NotFound) else Wrapped("get product", err)
  }

  /** The outcome of UpdatePrice and Delete once the store has answered: a store error is wrapped;
      zero rows affected is an error wrapping ErrNotFound; any other count is success. */
  function AffectedOutcome(context: string, rows: Int64, err: Option<Error>): (r: Option<Error>)
    ensures r.None? <==> err.None? && rows != 0
    ensures (r.Some? && Is(r.value, NotFound)) <==> (err.None? && rows == 0) || (err.Some? && Is(err.value, NotFound))
  {
    if err.Some? then Some(Wrapped(context, err.value))
    else if rows == 0 then Some(Wrapped(context, NotFound))
    else None
  }

  class ProductService {
    const store: Store.ProductStore

    constructor (store: Store.ProductStore)
      ensures this.store == store
    {
      this.store := store;
    }

    /** A rejected input never reaches the store; otherwise the insert runs and a store error is wrapped. */
    method Create(input: CreateProductInput, fault: Option<string>) returns (r: Result<Product, Error>)
      requires store.queries.Valid()
      modifies store.queries
      ensures store.queries.Valid()
      ensures ValidateCreate(input).Some? ==> r == Err(ValidateCreate(input).value) && unchanged(store.queries)
      ensures ValidateCreate(input).None? && r.Err? ==>
        && r.error.Wrapped? && r.error.context == "create" && r.error.inner.DriverError?
        && unchanged(store.queries)
      ensures ValidateCreate(input).None? ==>
        (r.Ok? <==> fault.None? && old(store.queries.nextId) <= MAX_INT32)
      ensures r.Ok? ==>
        && r.value == Product(old(store.queries.nextId), input.slug, input.title, input.description, input.priceCents)
        && store.queries.products == old(store.queries.products)[r.value.id := r.value]
        && store.queries.nextId == old(store.queries.nextId) + 1
    {
      var invalid := ValidateCreate(input);
      if invalid.Some? {
        return Err(invalid.value);
      }
      var product := store.Create(CreateProductParams(input.slug, input.title, input.description, input.priceCents), fault);
      if product.Err? {
        return Err(Wrapped("create", product.error));
      }
      r := product;
    }

    /** A stored product, or an error that wraps ErrNotFound exactly when the product is absent and
        the database did not fail. */
    method Get(id: Int32, fault: Option<string>) returns (r: Result<Product, Error>)
      ensures r.Ok? <==> fault.None? && id in store.queries.products
      ensures r.Ok? ==> r.value == store.queries.products[id]
      ensures r.Err? ==> (Is(r.error, NotFound) <==> fault.None?)
    {
      var product := store.Get(id, fault);
      if product.Err? {
        return Err(GetFailure(product.error));
      }
      r := product;
    }

    /** Rejects a limit above 50 before the store is asked; otherwise asks the store for a page of
        the effective limit, which the store leaves unclamped since it is at most 50. */
    method List(limit: Int32, offset: Int32, fault: Option<string>) returns (r: Result<seq<Product>, Error>)
      requires store.queries.Valid()
      ensures EffectiveLimit(limit).Err? ==> r.Err? && Is(r.error, InvalidInput)
      ensures EffectiveLimit(limit).Ok? ==> (r.Ok? <==> 0 <= offset && fault.None?)
      ensures r.Err? ==> !Is(r.error, NotFound)
      ensures r.Ok? ==>
        && |r.value| == PageSize(EffectiveLimit(limit).value, offset, |store.queries.products|)
        && (forall i :: 0 <= i < |r.value| ==> r.value[i].id in store.queries.products && store.queries.products[r.value[i].id] == r.value[i])
        && (forall i, j :: 0 <= i < j < |r.value| ==> r.value[i].id != r.value[j].id)
    {
      var l := EffectiveLimit(limit);
      if l.Err? {
        return Err(l.error);
      }
      var products := store.List(l.value, offset, fault);
      if products.Err? {
        return Err(Wrapped("service: list products", products.error));
      }
      r := products;
    }

    /** A rejected argument never reaches the store.  Otherwise the error wraps ErrNotFound exactly
        when the product is absent and the database did not fail, and success means the price was set. */
    method UpdatePrice(id: Int32, priceCents: Int32, fault: Option<string>) returns (err: Option<Error>)
      requires store.queries.Valid()
      modifies store.queries
      ensures store.queries.Valid()
      ensures ValidatePriceUpdate(id, priceCents).Some? ==>
        err == ValidatePriceUpdate(id, priceCents) && unchanged(store.queries)
      ensures ValidatePriceUpdate(id, priceCents).None? ==>
        && ((err.Some? && Is(err.value, NotFound)) <==> fault.None? && id !in old(store.queries.products))
        && (err.None? <==> fault.None? && id in old(store.queries.products))
      ensures err.Some? ==> unchanged(store.queries)
      ensures err.None? ==>
        && id in old(store.queries.products)
        && store.queries.products == old(store.queries.products)[id := old(store.queries.products)[id].(priceCents := priceCents)]
        && store.queries.nextId == old(store.queries.nextId)
    {
      var invalid := ValidatePriceUpdate(id, priceCents);
      if invalid.Some? {
        return invalid;
      }
      var rows, failure := store.UpdatePrice(id, priceCents, fault);
      err := AffectedOutcome("service: update price", rows, failure);
    }

    /** A non-positive id never reaches the store.  Otherwise the error wraps ErrNotFound exactly
        when the product is absent and the database did not fail, and success means it was removed. */
    method Delete(id: Int32, fault: Option<string>) returns (err: Option<Error>)
      requires store.queries.Valid()
      modifies store.queries
      ensures store.queries.Valid()
      ensures ValidateDelete(id).Some? ==> err == ValidateDelete(id) && unchanged(store.queries)
      ensures ValidateDelete(id).None? ==>
        && ((err.Some? && Is(err.value, NotFound)) <==> fault.None? && id !in old(store.queries.products))
        && (err.None? <==> fault.None? && id in old(store.queries.products))
      ensures err.Some? ==> unchanged(store.queries)
      ensures err.None? ==>
        && id in old(store.queries.products)
        && store.queries.products == old(store.queries.products) - {id}
        && store.queries.nextId == old(store.queries.nextId)
    {
      var invalid := ValidateDelete(id);
      if invalid.Some? {
        return invalid;
      }
      var rows, failure := store.Delete(id, fault);
      err := AffectedOutcome("service: delete product", rows, failure);
    }
  }
}
