# Task store, product rules, user query and router of go-db-docker, in Dafny

This project models the small pieces of real logic in the `backend` of go-db-docker, a set of Go
teaching exercises, and proves what they promise:

- **The in-memory task store** (`handlers/TaskHandler.go`). `Handlers.TaskStorage` is a class
  with a `tasks: map<Int64, Task>` field and a `taskIDCounter` field. Its methods create, get,
  update and delete in place. `Handlers.TaskHandler` is the Fiber handler layer. It takes the new
  id from the counter, bumps the counter, and turns storage results into HTTP statuses.
- **The product rules** (`service/product_service.go`, `internal/store/product_store.go`).
  There are two layers of argument checks and pagination clamping, written as pure functions.
  Each layer also has a class that forwards to an abstract product table
  (`ProductsDb.Queries`). The Go source does not include the generated sqlc query code, so the
  table is only a map from id to product. Update and delete on it report the number of rows
  affected.
- **Safe query construction** in `ListUsersByStatuses` (`sql/user/user.go`). It covers the
  `?,?,?` placeholders, the argument slice filled by a loop, the ORDER BY whitelist, and how the
  returned rows are collected. It also covers `User.String` and how it renders nil pointers.
- **Request dispatch** in `Router.ServeHTTP` (`router/router.go`). It is a pure function from
  method and path to the response: CORS headers, route, status and body.

Go's fixed-width integers are subset types (`GoInts.Int32`, `GoInts.Int64`). The counter's `++`
wraps around explicitly (`GoInts.Inc64`). Go errors used by the product layers are a datatype
(`GoErrors.Error`) with a `Wrapped` case for `fmt.Errorf("...%w...")`. `GoErrors.Is` models
`errors.Is`.

Inputs that come from outside the program are parameters:
- a request body or path id that did not parse is `None`;
- a database failure is `fault: Option<string>`;
- the database answering the user query is a function `Query -> Answer`.

Where the code departs from what a keyed store is usually expected to do, the model follows the code:

- `UpdateTask` is an **upsert**. It writes the task under its id whether or not one is there, so
  it never fails. The "Item not found" branch after the write cannot be reached. A strict Update
  that fails on a missing id would be a different design, and this file does not implement it.
- The first id handed out is **0**, the zero value of the Go counter, not 1.
- The Go file does not compile as written (`Storage`/`storage`, `Tasks`/`tasks`,
  `TaskIDCounter`/`taskIDCounter`, an undeclared `ErrNotFound`). The model follows the evident
  intent: the storage owns the map and the counter, the handler holds the storage, and
  `ErrNotFound` is a sentinel distinct from the `"Item not found"` error of Update and Delete.
- A `GetTask` request whose id does not parse is **not** answered with 400. The handler returns
  the `strconv` error to Fiber (`Reply.Failed(BadId)`). Update and Delete answer 400 in that case.
- Because Update upserts, a task written through Update under an id the counter has not reached
  yet is silently replaced by the later create that reaches that id
  (`Handlers.UpdateAheadOfCounter`).

## Model

| member | source | states |
|---|---|---|
| `Handlers.TaskStorage.CreateTask` | backend/handlers/TaskHandler.go:155-159 | the task is stored under `task.ID`, replacing any entry already there, and that id is returned |
| `Handlers.TaskStorage.GetTask` | backend/handlers/TaskHandler.go:161-169 | succeeds exactly when the id is present, returns the stored task unchanged, otherwise `ErrNotFound`; modifies nothing |
| `Handlers.TaskStorage.UpdateTask` | backend/handlers/TaskHandler.go:171-180 | always succeeds: the map becomes the old map with the task written under its id (inserted if absent), and the returned task is exactly the one written |
| `Handlers.TaskStorage.DeleteTask` | backend/handlers/TaskHandler.go:182-192 | fails exactly when the id is absent and then leaves the map unchanged; otherwise removes exactly that key |
| `Handlers.TaskHandler.CreateTask` | backend/handlers/TaskHandler.go:57-78 | the new id is the current counter value and the counter goes up by one (int64 wrap-around); 201 with the id; an unparseable body is returned as an error and changes nothing |
| `Handlers.TaskHandler.GetTask` | backend/handlers/TaskHandler.go:80-103 | empty id 400; unparseable id returned as an error; present id 200 with the task's fields; absent id 404 |
| `Handlers.TaskHandler.UpdateTask` | backend/handlers/TaskHandler.go:105-134 | empty id 400 "Id should exists"; unparseable id or body 400 "Error Json" with nothing changed; otherwise the task is upserted under the path id and the reply is 200 |
| `Handlers.TaskHandler.DeleteTask` | backend/handlers/TaskHandler.go:136-153 | empty id 400, unparseable id 400 "Error ID", absent id 404 with the map unchanged, present id 200 with exactly that key removed; the counter never changes |
| `Handlers.CreateDeleteCreate` | backend/handlers/TaskHandler.go:65-72 | two creates with a delete between return ids `c` and `c + 1` and leave the counter at `c + 2`: ids strictly increase and a delete does not lower the counter |
| `Handlers.DeleteThenLookup` | backend/handlers/TaskHandler.go:182-191 | after a delete, a lookup of the same id is `ErrNotFound` and a second delete fails |
| `Handlers.UpdateAheadOfCounter` | backend/handlers/TaskHandler.go:171-172 | a task upserted under the counter's next id is overwritten by the following create |
| `Handlers.Lifecycle` | backend/handlers/TaskHandler.go:57-153 | create, get, update, get, delete, get on a fresh store answer 201/0, 200 with the task, 200, 200 with the new fields, 200, 404 |
| `GoInts.Inc64` | backend/handlers/TaskHandler.go:72 | `++` on an int64: one more below the maximum, the minimum at the maximum |
| `ProductsDb.Queries.Lookup` | backend/internal/store/product_store.go:36 | the lookup answer: the stored product exactly when the id is present, otherwise `sql.ErrNoRows` |
| `ProductsDb.Queries.CreateProduct` | backend/internal/store/product_store.go:26 | inserts under the next serial id and returns the inserted product; a fault changes nothing |
| `ProductsDb.Queries.GetProductByID` | backend/internal/store/product_store.go:36 | a fault is a driver error; otherwise the lookup answer |
| `ProductsDb.Queries.ListProducts` | backend/internal/store/product_store.go:54-57 | returns `min(limit, rows - offset)` distinct stored products, with no claim about their order |
| `ProductsDb.Queries.UpdateProductPrice` | backend/internal/store/product_store.go:75-78 | 1 row affected and the price set when the id exists, 0 rows and no change otherwise |
| `ProductsDb.Queries.DeleteProduct` | backend/internal/store/product_store.go:93 | 1 row affected and the row removed when the id exists, 0 rows and no change otherwise |
| `Store.Pagination` | backend/internal/store/product_store.go:47-52 | a negative limit or offset is rejected; otherwise the limit is clamped to 0..100 (kept when at most 100) and the offset is unchanged |
| `Store.CheckPriceUpdate` | backend/internal/store/product_store.go:68-73 | accepts exactly a positive id with a price of at least 0 (0 passes at this layer) |
| `Store.CheckDelete` | backend/internal/store/product_store.go:89-91 | accepts exactly a positive id |
| `Store.ProductStore.Create` | backend/internal/store/product_store.go:25-32 | the insert's result and error pass through unchanged |
| `Store.ProductStore.Get` | backend/internal/store/product_store.go:35-42 | the lookup's result and error pass through unchanged, so a missing id is `sql.ErrNoRows` |
| `Store.ProductStore.List` | backend/internal/store/product_store.go:45-63 | bad pagination is rejected before the query; otherwise the page holds min(clamped limit, rows left after the offset) distinct stored products; a query error is wrapped; no error wraps `ErrNotFound` |
| `Store.ProductStore.UpdatePrice` | backend/internal/store/product_store.go:66-84 | 0 rows and no change on a rejected argument or a query error; otherwise the query's own row count, 1 exactly when the product exists |
| `Store.ProductStore.Delete` | backend/internal/store/product_store.go:87-99 | 0 rows with no change on an id that is not positive or a query error; otherwise the query's own row count and the row removed |
| `GoErrors.WrapsSentinelOnlyAtLeaf` | backend/service/product_service.go:25-28 | `errors.Is` against a sentinel holds exactly when the innermost error of the `%w` chain is that sentinel |
| `GoErrors.SentinelsExclusive` | backend/service/product_service.go:25-28 | no error matches two different sentinels, so `ErrNotFound`, `ErrInvalidInput` and `sql.ErrNoRows` always tell failures apart |
| `Service.ValidateCreate` | backend/service/product_service.go:39-44 | accepts exactly a non-empty slug with a positive price; an empty slug is the error reported even when the price is also bad |
| `Service.EffectiveLimit` | backend/service/product_service.go:72-78 | a limit of 0 or less becomes 10, a limit above 50 is rejected with `ErrInvalidInput`, so an accepted limit is always in 1..50 |
| `Service.ValidatePriceUpdate` | backend/service/product_service.go:91-98 | accepts exactly a positive id with a positive price; a rejection wraps `ErrInvalidInput` |
| `Service.ValidateDelete` | backend/service/product_service.go:115-118 | accepts exactly a positive id; a rejection wraps `ErrInvalidInput` |
| `Service.GetFailure` | backend/service/product_service.go:61-66 | the error wraps `ErrNotFound` exactly when the store error is `sql.ErrNoRows`, or already wraps `ErrNotFound`; any other error is kept as the wrapped cause |
| `Service.AffectedOutcome` | backend/service/product_service.go:100-110 | success exactly when the store succeeded with a non-zero row count; the error wraps `ErrNotFound` exactly when 0 rows were affected, or when the store error already wraps it |
| `Service.ProductService.Create` | backend/service/product_service.go:37-56 | a rejected input never reaches the store; otherwise the insert's product is returned, or its error wrapped under "create" |
| `Service.ProductService.Get` | backend/service/product_service.go:58-68 | the stored product when present; otherwise an error that wraps `ErrNotFound` exactly when the database did not fail |
| `Service.ProductService.List` | backend/service/product_service.go:70-87 | a limit above 50 is rejected with `ErrInvalidInput` before the store is asked; otherwise Ok exactly when the offset is not negative and the database does not fail, and then the page holds min(effective limit, rows left after the offset) distinct stored products; the effective limit is in 1..50 |
| `Service.ProductService.UpdatePrice` | backend/service/product_service.go:89-111 | a rejected argument never reaches the store; the error wraps `ErrNotFound` exactly when the product is absent; success exactly when it is present, and the price is set |
| `Service.ProductService.Delete` | backend/service/product_service.go:113-131 | an id that is not positive never reaches the store; the error wraps `ErrNotFound` exactly when the product is absent; success exactly when it is present, and it is removed; any error leaves the table and its serial counter unchanged |
| `UserSql.NatDigits` | backend/sql/user/user.go:84 | `%d` gives decimal digits only, with no leading zero except for 0 itself |
| `UserSql.NatDigitsValue` | backend/sql/user/user.go:84 | reading the `%d` digits back gives the number |
| `UserSql.ShowOptional` | backend/sql/user/user.go:69-79 | a nil pointer is rendered as `<nil>`; any other pointer as the value it points to |
| `UserSql.Decimal` | backend/sql/user/user.go:84 | `%d` of an int64: a leading minus sign exactly for a negative number, digits everywhere else |
| `UserSql.DecimalValue` | backend/sql/user/user.go:84 | reading the digits after the optional minus sign back gives the number |
| `UserSql.Show` | backend/sql/user/user.go:66-86 | the rendering starts `User{ID: ` followed by the id's `%d`; the Status slot holds the status as `ShowOptional` renders it (`<nil>` for nil) and the Age slot after `, Age: ` holds the age likewise |
| `UserSql.ShowIdRoundTrip` | backend/sql/user/user.go:84 | the id can be read back from the rendering: the digits after `User{ID: ` (and after a minus sign for a negative id) denote it |
| `UserSql.Repeat` | backend/sql/user/user.go:167 | `strings.Repeat(s, n)` is `n` times as long as `s` and starts with `s` when `n >= 1` |
| `UserSql.RepeatSplit` | backend/sql/user/user.go:167 | repeating `a + b` times is repeating `a` times followed by repeating `b` times |
| `UserSql.RepeatBlock` | backend/sql/user/user.go:167 | every block of `strings.Repeat(s, n)` is `s`: the `i`-th copy stands between `i` copies and the remaining `n - 1 - i` |
| `UserSql.TrimRight` | backend/sql/user/user.go:167 | the result is the longest prefix that does not end in the cut character; everything removed is that character |
| `UserSql.Placeholders` | backend/sql/user/user.go:167 | trimming the trailing comma off `n` copies of `?,` gives exactly `n` `?` joined by commas (the independent definition `Joined`) |
| `UserSql.PlaceholdersShape` | backend/sql/user/user.go:167 | n statuses give n `?` joined by commas with no trailing comma: empty for 0, 2n-1 characters otherwise, `?` at even and `,` at odd positions |
| `UserSql.OrderBy` | backend/sql/user/user.go:161-177 | a known key maps to its fixed clause, any other key to `id ASC`; the clause is always one of the three whitelisted ones |
| `UserSql.QueryText` | backend/sql/user/user.go:183 | the query text is the fixed SELECT prefix, n `?` joined by commas, `) ORDER BY ` and the clause OrderBy picks from the whitelist, so the caller's key never reaches the text |
| `UserSql.Args` | backend/sql/user/user.go:169-172 | the argument slice has the statuses' length and `args[i] == status[i]` at every index |
| `UserSql.FromRow` | backend/sql/user/user.go:191-192 | a scanned row keeps its four columns; age stays nil and the start time zero |
| `UserSql.ScanAll` | backend/sql/user/user.go:190-197 | a success has one user per scanned row; a failure carries the detail of a scan that failed |
| `UserSql.ScanAllRows` | backend/sql/user/user.go:190-197 | collecting succeeds exactly when every scan succeeds, and then gives one user per row, in row order |
| `UserSql.ScanAllFirstFailure` | backend/sql/user/user.go:192-195 | the loop stops at the first failed scan, and the reported error is that scan's |
| `UserSql.Collect` | backend/sql/user/user.go:184-201 | a failed query is swallowed (no users, nil error); the result has no error exactly when every scan and `rows.Err()` succeeded, and then holds the scanned users; a failed scan reports its error, otherwise a failed iteration reports `rows.Err()`; any error comes with no users |
| `UserSql.ListUsersByStatuses` | backend/sql/user/user.go:157-203 | no statuses means no query and an empty result; otherwise the database gets the built text with the statuses as arguments, and the result is its collected answer |
| `Router.Json` | backend/router/router.go:50-58 | the home and health handlers add `Content-Type: application/json`, keep every other header, and write their body with status 200 |
| `Router.NotFoundHeaders` | backend/router/router.go:46 | `http.NotFound` adds a plain-text content type and `X-Content-Type-Options: nosniff` and keeps every other header |
| `Router.ServeHTTP` | backend/router/router.go:19-48 | the three CORS headers are in every response; OPTIONS gives 200 for every path; only POST on exactly `/api/users` is delegated to CreateUser; `/health` and `/` go to their handlers for every other method; everything else is 404 NotFound |
| `Router.DisabledUserRoutes` | backend/router/router.go:33-47 | GET `/api/users` and every non-OPTIONS request to a `/api/users/...` path get NotFound, because those cases are commented out |

## Left out

- The `sync.RWMutex` in `TaskStorage` is declared but never locked. Concurrency is not modelled.
- Fiber body parsing, `strconv.ParseInt` and JSON encoding are not modelled. Their outcomes are
  inputs (`Option` values) or response values (`Handlers.Body`).
- How `TaskStorage` is constructed is not shown in the source. The model starts from an empty map
  and a zero counter. A zero-valued Go struct would instead hold a nil map, and the first write
  to it would panic.
- The sqlc-generated queries are not part of this model. `ProductsDb.Queries` is an abstract table
  with rows-affected counts of 0 or 1. It claims nothing about row order or table constraints, but
  it does make three assumptions about the queries that the Go source does not show:
  - `ProductsDb.Queries.ListProducts` assumes the list query applies LIMIT and OFFSET to the whole
    table with no filter, so a page holds exactly `min(limit, rows - offset)` rows. The page sizes
    stated by `Store.ProductStore.List` and `Service.ProductService.List` rest on this assumption.
  - `ProductsDb.Queries.ListProducts` assumes a negative limit or offset makes the query fail.
  - `ProductsDb.Queries.CreateProduct` assumes an int32 serial id, so an insert fails once the next
    id would pass the int32 maximum.
- Error message texts are reduced to a fixed context string. Formatted ids and values are not
  modelled, only which sentinel an error wraps.
- `ProductService.Get`, `Create` and `ProductStore.Get`, `Create` return the zero `Product` next to
  an error. The model returns only the error.
- `context.Context` arguments and `defer rows.Close()` are not modelled.
- The time formatting in `User.String` is not modelled: a user carries its already formatted
  start time. `parseTime`, `AddUser` and `GetAllUsers` are database I/O or printing and are not
  modelled.
- `Router.ServeHTTP`: the response the user handler writes for POST `/api/users` is outside the
  router. It is only marked as delegated.
- backend/main.go, customer.go, product.go, log.go, user_handler.go and user_repository.go are
  I/O against PostgreSQL, migrations and net/http glue. They are not part of this model.
